/** The report list: the status-tab filter and the per-report display fallbacks. */
module Reports {
  import opened Wrappers
  import opened Text
  import opened Seqs
  import opened Store
  import opened NewInspection

  datatype Tab = AllReports | Drafts | AwaitingAudit

  function TabId(t: Tab): string {
    match t
    case AllReports => "all"
    case Drafts => "draft"
    case AwaitingAudit => "pending_audit"
  }

  /** The `data` column as read back; either part may be missing in a stored row. */
  datatype ReportData = ReportData(siteDetails: Option<SiteDetails>, doors: Option<seq<Door>>)

  datatype Report = Report(id: string, clientName: string, projectName: string, status: string, data: Option<ReportData>)

  /** `activeTab === 'all' ? true : r.status === activeTab`. */
  predicate InTab(r: Report, tab: Tab)
    ensures tab == AllReports ==> InTab(r, tab)
    ensures tab != AllReports && InTab(r, tab) ==> r.status in {"draft", "pending_audit"}
    ensures tab == Drafts ==> (InTab(r, tab) <==> r.status == "draft")
    ensures tab == AwaitingAudit ==> (InTab(r, tab) <==> r.status == "pending_audit")
  {
    tab == AllReports || r.status == TabId(tab)
  }

  /** `reports.filter(...)`: the reports of the tab, in fetched order, nothing added. */
  function FilterReports(reports: seq<Report>, tab: Tab): (r: seq<Report>)
    ensures IsSubsequence(r, reports)
    ensures forall i :: 0 <= i < |r| ==> InTab(r[i], tab)
    ensures forall i :: 0 <= i < |reports| && InTab(reports[i], tab) ==> reports[i] in r
    ensures tab == AllReports ==> r == reports
    decreases |reports|
  {
    if reports == [] then []
    else
      var rest := FilterReports(reports[1..], tab);
      assert forall i :: 1 <= i < |reports| ==> reports[i] == reports[1..][i - 1];
      if InTab(reports[0], tab) then [reports[0]] + rest else rest
  }

  /** Filtering a concatenation filters each part: the filter never reorders across the list. */
  lemma {:induction false} FilterReportsConcat(a: seq<Report>, b: seq<Report>, tab: Tab)
    ensures FilterReports(a + b, tab) == FilterReports(a, tab) + FilterReports(b, tab)
    decreases |a|
  {
    if a == [] {
      assert a + b == b;
    } else {
      assert (a + b)[1..] == a[1..] + b;
      FilterReportsConcat(a[1..], b, tab);
    }
  }

  /** `report.data?.doors?.length || 0`. */
  function DoorsShown(report: Report): (n: nat)
    ensures report.data.Some? && report.data.value.doors.Some? ==> n == |report.data.value.doors.value|
    ensures report.data.None? || report.data.value.doors.None? ==> n == 0
  {
    match report.data
    case None => 0
    case Some(d) => match d.doors
      case None => 0
      case Some(ds) => |ds|
  }

  /** `report.data?.siteDetails?.engineerInitials || 'ENG'`. */
  function InspectorShown(report: Report): (r: string)
    ensures r != ""
    ensures report.data.Some? && report.data.value.siteDetails.Some?
            && report.data.value.siteDetails.value.engineerInitials != ""
            ==> r == report.data.value.siteDetails.value.engineerInitials
    ensures r != "ENG" ==> report.data.Some? && report.data.value.siteDetails.Some?
    ensures (report.data.None? || report.data.value.siteDetails.None?
             || report.data.value.siteDetails.value.engineerInitials == "") ==> r == "ENG"
  {
    match report.data
    case None => "ENG"
    case Some(d) => match d.siteDetails
      case None => "ENG"
      case Some(s) => if s.engineerInitials != "" then s.engineerInitials else "ENG"
  }

  /** `report.project_name || 'No address provided'`. */
  function AddressShown(report: Report): (r: string)
    ensures r != ""
    ensures report.projectName != "" ==> r == report.projectName
    ensures report.projectName == "" ==> r == "No address provided"
  {
    if report.projectName != "" then report.projectName else "No address provided"
  }

  /** `report.status.replace('_', ' ')`: only the first underscore becomes a space. */
  function StatusLabel(report: Report): (r: string)
    ensures |r| == |report.status|
  {
    ReplaceFirst(report.status, '_', ' ')
  }

  /** The two statuses a save can write read "pending audit" and "draft". */
  lemma StatusLabelsOfSavedRows(r: Report)
    ensures r.status == "pending_audit" ==> StatusLabel(r) == "pending audit"
    ensures r.status == "draft" ==> StatusLabel(r) == "draft"
  {
    var p := "pending_audit";
    assert p[7] == '_';
    assert '_' !in p[..7] by {
      assert p[..7] == "pending";
    }
    assert p[7 := ' '] == "pending audit";
    assert '_' !in "draft";
  }

  /** Only the first underscore changes: one at position `i`, the first, becomes a space; one further on stays. */
  lemma StatusLabelReplacesOnlyFirst(r: Report, i: nat, j: nat)
    requires i < j < |r.status| && r.status[i] == '_' && r.status[j] == '_' && '_' !in r.status[..i]
    ensures StatusLabel(r)[i] == ' ' && StatusLabel(r)[j] == '_'
    ensures forall k :: 0 <= k < |r.status| && k != i ==> StatusLabel(r)[k] == r.status[k]
  {
  }

  /** A submitted row as the report list reads it back from the table under the id it was given. */
  function StoredReport(id: string, row: InsertRow): Report {
    Report(id, row.clientName, row.projectName, row.status,
           Some(ReportData(Some(row.data.siteDetails), Some(row.data.doors))))
  }

  /**
   * A successful submission, listed again: it shows its door count and inspector, and
   * appears under the "all" tab and the tab of its own status, not the other one.
   */
  lemma SubmittedReportListing(id: string, site: SiteDetails, doors: seq<Door>, status: SyncStatus,
                               userId: Option<string>, now: string)
    requires BuildSubmission(site, doors, status, userId, now).Success?
    ensures var report := StoredReport(id, BuildSubmission(site, doors, status, userId, now).value);
      && DoorsShown(report) == |doors| && DoorsShown(report) > 0
      && InspectorShown(report) == (if site.engineerInitials != "" then site.engineerInitials else "ENG")
      && InTab(report, AllReports)
      && (InTab(report, AwaitingAudit) <==> status == PendingAudit)
      && (InTab(report, Drafts) <==> status == Draft)
  {
  }
}
