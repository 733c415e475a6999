/**
 * The project-details page: the stored project looked up by the route id, its status badge,
 * the tracking-focus card, and the (mock) contractor updates with their question/answer pairs.
 */
module ProjectDetails {
  import opened Wrappers
  import opened Text
  import opened LocalStore

  /** One contractor update with the follow-up questions asked and the answers given. */
  datatype Update = Update(
    id: String,
    timestamp: String,
    content: String,
    aiQuestions: seq<String>,
    responses: seq<String>)

  /** The fixed update the page shows for any project it finds. */
  const MockUpdate: Update := Update(
    "1",
    "2024-01-15T10:30:00Z",
    "Foundation work is 75% complete. We encountered some delays due to weather conditions.",
    [ "Can you specify which weather conditions caused the delays?",
      "What is the expected completion date for the foundation work?",
      "Are there any additional resources needed to catch up?" ],
    [ "Heavy rain for 3 consecutive days last week",
      "Expected completion by January 20th",
      "We may need an additional concrete crew if weather permits" ])

  const ActiveClass: String := "bg-green-100 text-green-800"
  const CompletedClass: String := "bg-blue-100 text-blue-800"
  const OnHoldClass: String := "bg-yellow-100 text-yellow-800"
  const DefaultClass: String := "bg-gray-100 text-gray-800"

  /**
   * `getStatusColor`: the badge classes for a status, grey for anything unrecognised. The three
   * known statuses get three different badges.
   */
  function StatusColor(status: String): (r: String)
    ensures r in {ActiveClass, CompletedClass, OnHoldClass, DefaultClass}
    ensures r == ActiveClass <==> status == "active"
    ensures r == CompletedClass <==> status == "completed"
    ensures r == OnHoldClass <==> status == "on-hold"
    ensures r == DefaultClass <==> status !in {"active", "completed", "on-hold"}
  {
    match status
    case "active" => ActiveClass
    case "completed" => CompletedClass
    case "on-hold" => OnHoldClass
    case _ => DefaultClass
  }

  const NoTrackingFocus: String := "No specific tracking focus areas defined."

  /** The tracking-focus card's text: the stored text, or a fallback when it is empty. */
  function TrackingFocusText(p: StoredProject): (r: String)
    ensures r != []
    ensures p.trackingFocus != [] ==> r == p.trackingFocus
    ensures p.trackingFocus == [] ==> r == NoTrackingFocus
  {
    if p.trackingFocus != [] then p.trackingFocus else NoTrackingFocus
  }

  /**
   * The rows of the questions list: one per question in order, each with the answer at the same
   * position, or no answer (`undefined`) when there are fewer answers than questions. Answers
   * beyond the last question are never shown.
   */
  function QuestionAnswerPairs(questions: seq<String>, responses: seq<String>): (r: seq<(String, Option<String>)>)
    ensures |r| == |questions|
    ensures forall i :: 0 <= i < |r| ==> r[i].0 == questions[i]
    ensures forall i :: 0 <= i < |r| ==> r[i].1 == if i < |responses| then Some(responses[i]) else None
  {
    if questions == [] then []
    else
      var answer := if responses == [] then None else Some(responses[0]);
      var rest := if responses == [] then [] else responses[1..];
      [(questions[0], answer)] + QuestionAnswerPairs(questions[1..], rest)
  }

  /** Every question of the mock update is shown with its answer. */
  lemma MockUpdateFullyAnswered()
    ensures forall row :: row in QuestionAnswerPairs(MockUpdate.aiQuestions, MockUpdate.responses) ==> row.1.Some?
  {
  }

  /** The details component's state. */
  class DetailsPage {
    var project: Option<StoredProject>
    var updates: seq<Update>

    /** The mock updates are shown exactly when a project was found. */
    ghost predicate Valid()
      reads this
    {
      (project.Some? ==> updates == [MockUpdate]) && (project.None? ==> updates == [])
    }

    /** Before the load step: "Project not found", no updates. */
    constructor ()
      ensures Valid() && project == None && updates == []
    {
      project, updates := None, [];
    }

    /**
     * The load effect: a stored project with the route id replaces the shown one and brings the
     * mock update; when none is found the page keeps what it had.
     */
    method LoadProject(routeId: Option<String>, saved: Option<seq<StoredProject>>)
      requires Valid()
      modifies this
      ensures Valid()
      ensures var found := LoadStoredProject(routeId, saved);
        && (found.Some? ==> project == found && updates == [MockUpdate])
        && (found.None? ==> project == old(project) && updates == old(updates))
    {
      var found := LoadStoredProject(routeId, saved);
      if found.Some? {
        project := found;
        updates := [MockUpdate];
      }
    }

    /**
     * The "No updates yet" card: it sits inside the view of a found project (without one the page
     * returns "Project not found" first) and needs an empty update list. A found project always
     * brings the mock update, so the card never shows.
     */
    predicate ShowsNoUpdates()
      reads this
      ensures Valid() ==> !ShowsNoUpdates()
    {
      project.Some? && updates == []
    }
  }
}
