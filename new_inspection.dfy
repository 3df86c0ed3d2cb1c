/**
 * Saving an inspection: the two validation checks, in their order, and the row that is
 * handed to the remote table, built from the store as it stands. The remote insert itself
 * is not modelled; a successful result is the payload that would be sent.
 */
module NewInspection {
  import opened Wrappers
  import opened Store
  import opened DoorCard

  /** The two buttons: "Send to Audit" and "Save Report". */
  datatype SyncStatus = PendingAudit | Draft

  function StatusText(s: SyncStatus): string {
    match s
    case PendingAudit => "pending_audit"
    case Draft => "draft"
  }

  /** Why a save is refused before any network call. */
  datatype SyncError = MissingBusinessName | NoDoors

  /** The `data` column: the store snapshot and the save time. */
  datatype Snapshot = Snapshot(siteDetails: SiteDetails, doors: seq<Door>, inspectionDate: string)

  /** The row inserted into the inspections table. */
  datatype InsertRow = InsertRow(
    kind: string,
    clientName: string,
    projectName: string,
    status: string,
    createdBy: Option<string>,
    data: Snapshot)

  const InspectionType := "fire-door"

  /**
   * `handleFinalSync` up to the insert: an empty business name is refused first, then an
   * empty door list; otherwise the row carries the site and doors unchanged. `userId` is
   * the signed-in user's id when there is one, `now` the clock reading in ISO-8601 form.
   */
  function BuildSubmission(site: SiteDetails, doors: seq<Door>, status: SyncStatus, userId: Option<string>, now: string)
    : (r: Result<InsertRow, SyncError>)
    ensures site.businessName == "" ==> r == Failure(MissingBusinessName)
    ensures site.businessName != "" && doors == [] ==> r == Failure(NoDoors)
    ensures r.Success? <==> site.businessName != "" && doors != []
    ensures r.Success? ==>
      && r.value.kind == InspectionType
      && r.value.clientName == site.businessName
      && r.value.projectName == site.siteAddress
      && r.value.status == StatusText(status)
      && r.value.createdBy == userId
      && r.value.data.siteDetails == site
      && r.value.data.doors == doors
      && r.value.data.inspectionDate == now
  {
    if site.businessName == "" then Failure(MissingBusinessName)
    else if |doors| == 0 then Failure(NoDoors)
    else Success(InsertRow(InspectionType, site.businessName, site.siteAddress, StatusText(status), userId,
                           Snapshot(site, doors, now)))
  }

  /** Reads the store and builds the submission; it has no frame, so the store is never changed. */
  method HandleFinalSync(store: AssessmentStore, status: SyncStatus, userId: Option<string>, now: string)
    returns (outcome: Result<InsertRow, SyncError>)
    ensures outcome == BuildSubmission(store.siteDetails, store.doors, status, userId, now)
    ensures outcome.Success? ==> outcome.value.data.doors == store.doors && outcome.value.data.siteDetails == store.siteDetails
  {
    outcome := BuildSubmission(store.siteDetails, store.doors, status, userId, now);
  }

  /**
   * Create the store, declare two doors, fail the first question of the first door and save:
   * the payload holds both doors and the recorded Fail.
   */
  method SubmitAfterOneAnswer(loadDate: string, random36: string, randoms: seq<string>, business: string, now: string)
    returns (outcome: Result<InsertRow, SyncError>)
    requires |randoms| >= 2 && business != ""
    ensures outcome.Success?
    ensures |outcome.value.data.doors| == 2
    ensures 0 in outcome.value.data.doors[0].responses && outcome.value.data.doors[0].responses[0] == Fail
  {
    var store := new AssessmentStore(loadDate, random36);
    store.SetSiteDetails(NoSiteChanges.(businessName := Some(business)));
    store.InitializeDoors(2, randoms);
    var first := store.doors[0];
    HandleResponseChange(store, first, false, 0, Fail);
    outcome := HandleFinalSync(store, PendingAudit, None, now);
  }
}
