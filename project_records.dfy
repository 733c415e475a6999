/**
 * The shapes the pages exchange with the hosted backend: the signed-in user reported by the
 * auth callback, and one record of the `projects` collection as created on submit and listed
 * by both dashboards.
 */
module ProjectRecords {
  import opened Wrappers
  import opened Text

  /** The user object of an auth state change (only its id and e-mail are read). */
  datatype User = User(id: String, email: String)

  /** One record of the `projects` collection. */
  datatype ProjectRecord = ProjectRecord(
    id: String,
    userId: String,
    projectName: String,
    description: String,
    trackingFocusAreas: String,
    scheduleFileName: String,
    scheduleFileUrl: String,
    contractorLink: String,
    createdAt: String,
    updatesCount: nat,
    lastUpdate: Option<String>)
}
