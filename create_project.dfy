/**
 * The create-project form: the schedule-file extension check, the form's state transitions
 * (field edits, drag highlighting, file choice) and the submit flow that builds the project record.
 */
module CreateProject {
  import opened Wrappers
  import opened Text
  import opened ProjectRecords

  // ---------------------------------------------------------------------------
  // Schedule file type
  // ---------------------------------------------------------------------------

  /** The allow-list, each entry with its leading dot. */
  const ValidTypes: seq<String> := [".xer", ".mpp", ".pdf", ".xls", ".xlsx"]

  /** The same extensions without the dot. */
  const AllowedExtensions: set<String> := {"xer", "mpp", "pdf", "xls", "xlsx"}

  /** `'.' + name.split('.').pop().toLowerCase()`. */
  function FileExtension(name: String): String {
    "." + Lower(Last(Split(name, '.')))
  }

  /** `isValidFileType`: the lowered extension is on the allow-list. */
  predicate IsValidFileType(name: String) {
    FileExtension(name) in ValidTypes
  }

  /** A name is accepted iff the lowered text after its last dot (the whole name if none) is allowed. */
  lemma ValidIffLastSegmentAllowed(name: String)
    ensures IsValidFileType(name) <==> Lower(AfterLast(name, '.')) in AllowedExtensions
  {
    LastOfSplit(name, '.');
    var ext := Lower(AfterLast(name, '.'));
    assert FileExtension(name) == "." + ext;
    if "." + ext in ValidTypes {
      var i :| 0 <= i < |ValidTypes| && ValidTypes[i] == "." + ext;
      assert ext == ("." + ext)[1..] == ValidTypes[i][1..];
      if i == 0 { assert ValidTypes[i][1..] == "xer"; }
      else if i == 1 { assert ValidTypes[i][1..] == "mpp"; }
      else if i == 2 { assert ValidTypes[i][1..] == "pdf"; }
      else if i == 3 { assert ValidTypes[i][1..] == "xls"; }
      else { assert ValidTypes[i][1..] == "xlsx"; }
    }
    if ext in AllowedExtensions {
      if ext == "xer" { assert "." + ext == ValidTypes[0]; }
      else if ext == "mpp" { assert "." + ext == ValidTypes[1]; }
      else if ext == "pdf" { assert "." + ext == ValidTypes[2]; }
      else if ext == "xls" { assert "." + ext == ValidTypes[3]; }
      else { assert "." + ext == ValidTypes[4]; }
    }
  }

  /** Letter case never changes the verdict: names equal up to case are judged alike. */
  lemma CaseInsensitive(a: String, b: String)
    requires Lower(a) == Lower(b)
    ensures IsValidFileType(a) <==> IsValidFileType(b)
  {
    LastOfSplit(a, '.');
    LastOfSplit(b, '.');
    LowerAfterLast(a, '.');
    LowerAfterLast(b, '.');
  }

  /** Only the final segment counts: whatever precedes the last dot is irrelevant. */
  lemma OnlyLastSegmentCounts(prefix: String, last: String)
    ensures IsValidFileType(prefix + "." + last) <==> IsValidFileType(last)
  {
    LastOfSplit(prefix + "." + last, '.');
    LastOfSplit(last, '.');
    AfterLastAppend(prefix, last, '.');
  }

  /** A name without a dot is judged as a whole. */
  lemma NoDotJudgedWhole(name: String)
    requires '.' !in name
    ensures IsValidFileType(name) <==> Lower(name) in AllowedExtensions
  {
    ValidIffLastSegmentAllowed(name);
    AfterLastNoSep(name, '.');
  }

  /** Sample verdict: an upper-case allowed extension is accepted. */
  lemma SampleUpperCase()
    ensures IsValidFileType("PLAN.XLSX")
  {
    OnlyLastSegmentCounts("PLAN", "XLSX");
    NoDotJudgedWhole("XLSX");
    assert Lower("XLSX") == "xlsx";
  }

  /** Sample verdict: the same name in lower case is accepted too. */
  lemma SampleLowerCase()
    ensures IsValidFileType("plan.xlsx")
  {
    SampleUpperCase();
    assert Lower("PLAN.XLSX") == Lower("plan.xlsx");
    CaseInsensitive("PLAN.XLSX", "plan.xlsx");
  }

  /** Sample verdict: an allowed extension followed by a disallowed one is rejected. */
  lemma SampleDisallowedLast()
    ensures !IsValidFileType("plan.pdf.docx")
  {
    assert !IsValidFileType("docx") by {
      NoDotJudgedWhole("docx");
      assert Lower("docx") == "docx";
    }
    assert "plan.pdf" + "." + "docx" == "plan.pdf.docx";
    OnlyLastSegmentCounts("plan.pdf", "docx");
  }

  /** Sample verdict: a disallowed extension followed by an allowed one is accepted. */
  lemma SampleAllowedLast()
    ensures IsValidFileType("plan.docx.pdf")
  {
    assert "plan.docx" + "." + "pdf" == "plan.docx.pdf";
    OnlyLastSegmentCounts("plan.docx", "pdf");
    NoDotJudgedWhole("pdf");
    assert Lower("pdf") == "pdf";
  }

  /** Sample verdict: a dot-less name that spells an extension is accepted. */
  lemma SampleBareExtension()
    ensures IsValidFileType("xer")
  {
    NoDotJudgedWhole("xer");
    assert Lower("xer") == "xer";
  }

  /** Sample verdict: a dot-less ordinary name is rejected. */
  lemma SampleNoDot()
    ensures !IsValidFileType("plan")
  {
    NoDotJudgedWhole("plan");
    assert Lower("plan") == "plan";
  }

  /** Sample verdict: a trailing dot leaves an empty last segment, which is rejected. */
  lemma SampleTrailingDot()
    ensures !IsValidFileType("plan.")
  {
    OnlyLastSegmentCounts("plan", "");
    NoDotJudgedWhole("");
  }

  // ---------------------------------------------------------------------------
  // Form state
  // ---------------------------------------------------------------------------

  const ProjectNameField: String := "projectName"
  const DescriptionField: String := "description"
  const FocusAreasField: String := "trackingFocusAreas"

  /** The fields the form cannot be submitted without. */
  const RequiredFields: set<String> := {ProjectNameField, DescriptionField, FocusAreasField}

  /** The part of a browser `File` the page reads. */
  datatype File = File(name: String, size: nat)

  /** What the submit handler's closure captured when it started. */
  datatype SubmitSnapshot = SubmitSnapshot(
    userId: String,
    projectName: String,
    description: String,
    trackingFocusAreas: String,
    scheduleFile: Option<File>)

  /** What the environment supplies while the submit handler runs. */
  datatype Environment = Environment(
    origin: String,            // window.location.origin
    now: nat,                  // Date.now() when the project id is built
    randomSuffix: String,      // Math.random().toString(36).substr(2, 9)
    createdAt: String,         // new Date().toISOString() for the project
    upload: Outcome<String>,   // the upload's publicUrl, or a thrown error
    projectCreated: bool,      // the project create call resolved
    analysis: Outcome<String>, // the generated analysis text, or a thrown error
    analysisCreatedAt: String, // new Date().toISOString() for the analysis
    analysisStored: bool)      // the analysis create call resolved

  /** The record stored in the `projectAnalysis` collection. */
  datatype AnalysisRecord = AnalysisRecord(id: String, projectId: String, scheduleAnalysis: String, createdAt: String)

  /** How a submit ends. */
  datatype SubmitResult =
    | Aborted   // the upload or the project create threw: logged, no navigation
    | Created(project: ProjectRecord, analysisAttempted: bool, analysis: Option<AnalysisRecord>, navigateTo: String)

  /** `proj_${Date.now()}_${suffix}`. */
  function ProjectIdFor(now: nat, suffix: String): String {
    "proj_" + Decimal(now) + "_" + suffix
  }

  /** The id determines the instant and the random suffix it was built from. */
  lemma ProjectIdInjective(m: nat, n: nat, s: String, t: String)
    requires '_' !in s && '_' !in t
    ensures ProjectIdFor(m, s) == ProjectIdFor(n, t) ==> m == n && s == t
  {
    var dm, dn := Decimal(m), Decimal(n);
    if ProjectIdFor(m, s) == ProjectIdFor(n, t) {
      assert ProjectIdFor(m, s)[5..] == dm + "_" + s;
      assert ProjectIdFor(n, t)[5..] == dn + "_" + t;
      JoinedAtSeparator(dm, dn, '_', s, t);
      DecimalInjective(m, n);
    }
  }

  /** The link a contractor opens: the chat route of the project on this origin. */
  function ContractorLink(origin: String, projectId: String): String {
    origin + "/chat/" + projectId
  }

  /** The create-project component state. */
  class CreateProjectPage {
    var user: Option<User>
    var loading: bool
    var submitting: bool
    var formData: map<String, String>
    var scheduleFile: Option<File>
    var dragActive: bool

    /** The three form fields are always present. */
    ghost predicate Valid()
      reads this
    {
      ProjectNameField in formData && DescriptionField in formData && FocusAreasField in formData
    }

    constructor ()
      ensures Valid()
      ensures user == None && loading && !submitting && scheduleFile == None && !dragActive
      ensures formData == map[ProjectNameField := "", DescriptionField := "", FocusAreasField := ""]
    {
      user, loading, submitting := None, true, false;
      formData := map[ProjectNameField := "", DescriptionField := "", FocusAreasField := ""];
      scheduleFile, dragActive := None, false;
    }

    /** The auth callback records the user and ends the loading state. */
    method OnAuthStateChanged(u: Option<User>)
      modifies this`user, this`loading
      ensures user == u && !loading
    {
      user := u;
      loading := false;
    }

    /** `handleInputChange`: the named field takes the value; every other field keeps its own. */
    method HandleInputChange(name: String, value: String)
      requires Valid()
      modifies this`formData
      ensures Valid()
      ensures name in formData && formData[name] == value
      ensures formData.Keys == old(formData).Keys + {name}
      ensures forall f :: f in old(formData) && f != name ==> formData[f] == old(formData)[f]
    {
      formData := formData[name := value];
    }

    /** `handleDrag`: enter and over light the drop zone, leave darkens it, other events leave it. */
    method HandleDrag(eventType: String)
      modifies this`dragActive
      ensures eventType == "dragenter" || eventType == "dragover" ==> dragActive
      ensures eventType == "dragleave" ==> !dragActive
      ensures eventType !in {"dragenter", "dragover", "dragleave"} ==> dragActive == old(dragActive)
    {
      if eventType == "dragenter" || eventType == "dragover" {
        dragActive := true;
      } else if eventType == "dragleave" {
        dragActive := false;
      }
    }

    /** `handleFileSelect`: only the first file is looked at, and it is kept only when its type is valid. */
    method HandleFileSelect(files: seq<File>)
      modifies this`scheduleFile
      ensures files != [] && IsValidFileType(files[0].name) ==> scheduleFile == Some(files[0])
      ensures !(files != [] && IsValidFileType(files[0].name)) ==> scheduleFile == old(scheduleFile)
    {
      if files != [] {
        var file := files[0];
        if IsValidFileType(file.name) {
          scheduleFile := Some(file);
        }
      }
    }

    /** `handleDrop`: always clears the highlight, then treats the files as a selection. */
    method HandleDrop(files: seq<File>)
      modifies this`dragActive, this`scheduleFile
      ensures !dragActive
      ensures files != [] && IsValidFileType(files[0].name) ==> scheduleFile == Some(files[0])
      ensures !(files != [] && IsValidFileType(files[0].name)) ==> scheduleFile == old(scheduleFile)
    {
      dragActive := false;
      HandleFileSelect(files);
    }

    /** The "Remove File" button. */
    method RemoveFile()
      modifies this`scheduleFile
      ensures scheduleFile == None
    {
      scheduleFile := None;
    }

    /** The submit button is disabled while submitting or while a required field is empty. */
    predicate SubmitDisabled()
      reads this
      requires Valid()
      ensures SubmitDisabled() <==> submitting || exists f :: f in RequiredFields && formData[f] == ""
    {
      submitting || formData[ProjectNameField] == "" || formData[DescriptionField] == "" ||
      formData[FocusAreasField] == ""
    }

    /**
     * `handleSubmit` up to its first await: without a user nothing happens; otherwise the page
     * enters the submitting state (which disables the button) and captures what the rest needs.
     */
    method HandleSubmit() returns (pending: Option<SubmitSnapshot>)
      requires Valid()
      modifies this`submitting
      ensures Valid()
      ensures user.None? ==> pending == None && submitting == old(submitting)
      ensures user.Some? ==> submitting && SubmitDisabled() && pending == Some(SubmitSnapshot(
        user.value.id, formData[ProjectNameField], formData[DescriptionField],
        formData[FocusAreasField], scheduleFile))
      ensures user.Some? && !old(SubmitDisabled()) ==>
        && pending.value.projectName != []
        && pending.value.description != []
        && pending.value.trackingFocusAreas != []
    {
      if user.None? {
        return None;
      }
      submitting := true;
      pending := Some(SubmitSnapshot(user.value.id, formData[ProjectNameField],
        formData[DescriptionField], formData[FocusAreasField], scheduleFile));
    }

    /**
     * The rest of `handleSubmit`: upload the file if there is one, create the project record
     * (no updates yet, the contractor link pointing at its chat), analyse the schedule only when
     * an upload URL exists, and leave the submitting state whatever happened.
     */
    method CompleteSubmit(snap: SubmitSnapshot, env: Environment) returns (result: SubmitResult)
      modifies this`submitting
      ensures !submitting
      ensures result.Aborted? <==> (snap.scheduleFile.Some? && env.upload.Failed?) || !env.projectCreated
      ensures result.Created? ==>
        var id := ProjectIdFor(env.now, env.randomSuffix);
        var p := result.project;
        && p.id == id && p.userId == snap.userId
        && p.projectName == snap.projectName && p.description == snap.description
        && p.trackingFocusAreas == snap.trackingFocusAreas
        && p.contractorLink == ContractorLink(env.origin, id)
        && p.createdAt == env.createdAt && p.updatesCount == 0 && p.lastUpdate == None
        && (snap.scheduleFile.None? ==> p.scheduleFileName == "" && p.scheduleFileUrl == "")
        && (snap.scheduleFile.Some? ==> p.scheduleFileName == snap.scheduleFile.value.name)
        && (snap.scheduleFile.Some? ==> p.scheduleFileUrl == env.upload.value)
        && result.navigateTo == "/project/" + id
        && (result.analysisAttempted <==> p.scheduleFileUrl != "")
        && (result.analysis.Some? <==> result.analysisAttempted && env.analysis.Ok? && env.analysisStored)
        && (result.analysis.Some? ==>
              result.analysis.value == AnalysisRecord("analysis_" + id, id, env.analysis.value, env.analysisCreatedAt))
    {
      var scheduleFileName := "";
      var scheduleFileUrl := "";
      if snap.scheduleFile.Some? {
        if env.upload.Failed? {
          submitting := false;
          return Aborted;
        }
        scheduleFileUrl := env.upload.value;
        scheduleFileName := snap.scheduleFile.value.name;
      }
      var projectId := ProjectIdFor(env.now, env.randomSuffix);
      var contractorLink := ContractorLink(env.origin, projectId);
      if !env.projectCreated {
        submitting := false;
        return Aborted;
      }
      var project := ProjectRecord(projectId, snap.userId, snap.projectName, snap.description,
        snap.trackingFocusAreas, scheduleFileName, scheduleFileUrl, contractorLink,
        env.createdAt, 0, None);
      var analysis: Option<AnalysisRecord> := None;
      var attempted := scheduleFileUrl != "";
      if attempted && env.analysis.Ok? && env.analysisStored {
        analysis := Some(AnalysisRecord("analysis_" + projectId, projectId, env.analysis.value,
          env.analysisCreatedAt));
      }
      submitting := false;
      result := Created(project, attempted, analysis, "/project/" + projectId);
    }
  }
}
