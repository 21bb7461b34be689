/**
 * `src/main.py`: the record `process_single_project` builds for one project
 * and the loop of `run_dashboard` over all projects. The Google clients
 * behind one project are replaced by the responses they give
 * (`ProjectEnv`); the loop sees each project only through what the call
 * for it returns or raises (`ProjectCall`).
 */
module Dashboard {
  import opened Wrappers
  import opened Calendar
  import opened Text
  import opened Dicts
  import opened DashboardTypes
  import opened GcpClient
  import opened GcpCostProcessor

  const AuthErrorMessage: string := "GCP authentication failed. Run 'gcloud auth application-default login'."
  const FailedPrefix: string := "Failed to process project: "
  const UnexpectedPrefix: string := "Unexpected error: "
  const DefaultCurrentName: string := "Current Period"
  const DefaultPreviousName: string := "Previous Period"
  const NotAvailable: string := "N/A"

  // ---------------------------------------------------------------------
  // process_single_project
  // ---------------------------------------------------------------------

  /**
   * The dict every failure branch builds: zero costs, no service costs, an
   * empty tally, the default period names and "N/A" dates; only the
   * formatted-cost line, the budget/GKE marker and the error differ.
   */
  function FailureRecord(projectId: string, costLine: string, marker: string, error: string): ProjectData {
    ProjectData(projectId, 0.0, 0.0, [], [costLine], [marker], [], [marker], false, Some(error),
                DefaultCurrentName, DefaultPreviousName, NotAvailable, NotAvailable, NotAvailable, NotAvailable)
  }

  /** The record for a `DefaultCredentialsError`, in `process_single_project` and in `run_dashboard` alike. */
  function AuthErrorRecord(projectId: string): ProjectData {
    FailureRecord(projectId, AuthErrorMessage, "Auth Error", AuthErrorMessage)
  }

  /** The record of `process_single_project`'s generic handler: the message goes to `error` bare. */
  function ErrorRecord(projectId: string, message: string): ProjectData {
    FailureRecord(projectId, FailedPrefix + message, "Error", message)
  }

  /** The record of `run_dashboard`'s generic handler: the prefixed message goes to both places. */
  function UnexpectedErrorRecord(projectId: string, message: string): ProjectData {
    FailureRecord(projectId, UnexpectedPrefix + message, "Error", UnexpectedPrefix + message)
  }

  /** The stand-in cost data for a project whose billing account is unknown. */
  function NoBillingCostData(projectId: string, timeRange: Option<int>): CostData {
    CostData(projectId, 0.0, 0.0, [], [], DefaultCurrentName, DefaultPreviousName, timeRange,
             NotAvailable, NotAvailable, NotAvailable, NotAvailable)
  }

  /** What the Google clients answer for one project. */
  datatype ProjectEnv = ProjectEnv(
    billing: BillingResponse,
    budgetsClient: ClientResponse,
    budgets: BudgetListing,
    gkeClient: ClientResponse,
    clusters: ClusterApi)

  /** The success dict, built from the cost data and the tally. */
  function SuccessRecord(projectId: string, cost: CostData, gke: Dict): ProjectData {
    var (costLines, serviceCosts) := ProcessGcpCosts(cost);
    ProjectData(projectId, cost.previousPeriodCost, cost.currentPeriodCost, serviceCosts, costLines,
                BudgetInfoLines(cost.budgets), gke, GkeSummaryLines(gke), true, None,
                cost.currentPeriodName, cost.previousPeriodName,
                cost.currentPeriodStart, cost.currentPeriodEnd, cost.previousPeriodStart, cost.previousPeriodEnd)
  }

  /** The cost data used: stand-in data without a billing account name, else `get_gcp_cost_data`. */
  function ProjectCostData(projectId: string, timeRange: Option<int>, today: ValidDate, env: ProjectEnv, account: Option<string>): Outcome<CostData> {
    if account.None? || account.value == "" then Returned(NoBillingCostData(projectId, timeRange))
    else CostDataOf(projectId, timeRange, today, env.budgetsClient, env.budgets)
  }

  /**
   * The body of the `try`: billing account, then cost data, then the tally;
   * the first exception raised ends it.
   */
  function ProjectOutcome(projectId: string, userLocations: Option<seq<string>>, timeRange: Option<int>,
                          today: ValidDate, env: ProjectEnv): Outcome<ProjectData>
  {
    match GetBillingAccountForProject(env.billing)
    case RaisedCredential => RaisedCredential
    case RaisedOther(m) => RaisedOther(m)
    case Returned(account) =>
      match ProjectCostData(projectId, timeRange, today, env, account)
      case RaisedCredential => RaisedCredential
      case RaisedOther(m) => RaisedOther(m)
      case Returned(cost) =>
        match GkeSummary(userLocations, env.gkeClient, env.clusters)
        case RaisedCredential => RaisedCredential
        case RaisedOther(m) => RaisedOther(m)
        case Returned(gke) => Returned(SuccessRecord(projectId, cost, gke))
  }

  /** `process_single_project` as written: both handlers turn the exception into a record. */
  function ProcessSingleProject(projectId: string, userLocations: Option<seq<string>>, timeRange: Option<int>,
                                today: ValidDate, env: ProjectEnv): ProjectData
  {
    match ProjectOutcome(projectId, userLocations, timeRange, today, env)
    case Returned(d) => d
    case RaisedCredential => AuthErrorRecord(projectId)
    case RaisedOther(m) => ErrorRecord(projectId, m)
  }

  /** The shape every failure record has, whichever handler built it. */
  ghost predicate FailureShape(d: ProjectData) {
    && !d.success && d.error.Some?
    && d.previousPeriodCost == 0.0 && d.currentPeriodCost == 0.0
    && d.serviceCosts == [] && |d.serviceCostsFormatted| == 1
    && |d.budgetInfo| == 1 && d.gkeSummary == [] && d.gkeSummaryFormatted == d.budgetInfo
    && d.currentPeriodName == DefaultCurrentName && d.previousPeriodName == DefaultPreviousName
    && d.currentPeriodStart == NotAvailable && d.currentPeriodEnd == NotAvailable
    && d.previousPeriodStart == NotAvailable && d.previousPeriodEnd == NotAvailable
  }

  /**
   * The record always carries the project id and is a success exactly when
   * nothing was raised; a credential error gives the auth-error record, any
   * other exception the generic one with `error = str(e)`, and both have the
   * failure shape.
   */
  lemma ProcessSingleProjectRecord(projectId: string, userLocations: Option<seq<string>>, timeRange: Option<int>,
                                   today: ValidDate, env: ProjectEnv)
    ensures var o := ProjectOutcome(projectId, userLocations, timeRange, today, env);
      var r := ProcessSingleProject(projectId, userLocations, timeRange, today, env);
      && r.projectId == projectId
      && (r.success <==> o.Returned?)
      && (!r.success ==> FailureShape(r))
      && (o.RaisedCredential? ==>
            r.error == Some(AuthErrorMessage) && r.serviceCostsFormatted == [AuthErrorMessage] && r.budgetInfo == ["Auth Error"])
      && (o.RaisedOther? ==>
            r.error == Some(o.message) && r.serviceCostsFormatted == [FailedPrefix + o.message] && r.budgetInfo == ["Error"])
      && (r.success ==> r.error == None)
  {
  }

  /** The billing lookup gave a non-empty account name, so `get_gcp_cost_data` is called. */
  predicate HasBillingAccount(env: ProjectEnv) {
    var b := GetBillingAccountForProject(env.billing);
    b.Returned? && b.value.Some? && b.value.value != ""
  }

  /**
   * A credential error escapes the `try` exactly when the billing lookup
   * raises it, or `get_gcp_cost_data` does, or the cost data was obtained and
   * building the cluster client raises it; wherever it comes from, the
   * record is the auth-error record.
   */
  lemma CredentialErrorRecord(projectId: string, userLocations: Option<seq<string>>, timeRange: Option<int>,
                              today: ValidDate, env: ProjectEnv)
    ensures var cost := CostDataOf(projectId, timeRange, today, env.budgetsClient, env.budgets);
      ProjectOutcome(projectId, userLocations, timeRange, today, env).RaisedCredential? <==>
        || env.billing.BillingCredentialError?
        || (HasBillingAccount(env) && cost.RaisedCredential?)
        || (!env.billing.BillingCredentialError? && (HasBillingAccount(env) ==> cost.Returned?) && env.gkeClient.ClientCredentialError?)
    ensures ProjectOutcome(projectId, userLocations, timeRange, today, env).RaisedCredential? ==>
      ProcessSingleProject(projectId, userLocations, timeRange, today, env) == AuthErrorRecord(projectId)
  {
    GkeSummaryProperties(userLocations, env.gkeClient, env.clusters);
  }

  /**
   * With a billing account, a failure to build the Budget Service client
   * decides the record whatever the dates: the auth-error record for a
   * credential error, the generic error record with its message otherwise.
   */
  lemma BudgetsClientRecord(projectId: string, userLocations: Option<seq<string>>, timeRange: Option<int>,
                            today: ValidDate, env: ProjectEnv)
    requires HasBillingAccount(env)
    ensures env.budgetsClient.ClientCredentialError? ==>
      ProcessSingleProject(projectId, userLocations, timeRange, today, env) == AuthErrorRecord(projectId)
    ensures env.budgetsClient.ClientOtherError? ==>
      ProcessSingleProject(projectId, userLocations, timeRange, today, env) == ErrorRecord(projectId, env.budgetsClient.message)
  {
  }

  /**
   * Without a billing account the project still succeeds when the tally
   * does: zero costs, the no-cost line, no budgets and the fetched tally.
   */
  lemma NoBillingRecord(projectId: string, userLocations: Option<seq<string>>, timeRange: Option<int>,
                        today: ValidDate, env: ProjectEnv)
    requires GetBillingAccountForProject(env.billing) in {Returned(None), Returned(Some(""))}
    requires !env.gkeClient.ClientCredentialError?
    ensures var r := ProcessSingleProject(projectId, userLocations, timeRange, today, env);
      && r.success && r.error == None
      && r.currentPeriodCost == 0.0 && r.previousPeriodCost == 0.0
      && r.serviceCosts == [] && r.serviceCostsFormatted == [NoCostLine]
      && r.budgetInfo == [NoBudgetsLine]
      && r.gkeSummary == GkeSummary(userLocations, env.gkeClient, env.clusters).value
      && r.currentPeriodStart == NotAvailable && r.previousPeriodEnd == NotAvailable
  {
    GkeSummaryProperties(userLocations, env.gkeClient, env.clusters);
  }

  /** With a billing account the record carries what `get_gcp_cost_data` returned. */
  lemma BillingRecord(projectId: string, userLocations: Option<seq<string>>, timeRange: Option<int>,
                      today: ValidDate, env: ProjectEnv, account: string)
    requires GetBillingAccountForProject(env.billing) == Returned(Some(account)) && account != ""
    requires CostDataOf(projectId, timeRange, today, env.budgetsClient, env.budgets).Returned?
    requires GkeSummary(userLocations, env.gkeClient, env.clusters).Returned?
    ensures var c := CostDataOf(projectId, timeRange, today, env.budgetsClient, env.budgets).value;
      var r := ProcessSingleProject(projectId, userLocations, timeRange, today, env);
      && r.success && r.error == None && r.projectId == projectId
      && r.currentPeriodCost == c.currentPeriodCost && r.previousPeriodCost == 0.0
      && (r.serviceCostsFormatted, r.serviceCosts) == ProcessGcpCosts(c)
      && r.budgetInfo == BudgetInfoLines(c.budgets)
      && r.gkeSummary == GkeSummary(userLocations, env.gkeClient, env.clusters).value
      && r.gkeSummaryFormatted == GkeSummaryLines(r.gkeSummary)
      && r.currentPeriodName == c.currentPeriodName && r.previousPeriodName == c.previousPeriodName
      && r.currentPeriodStart == c.currentPeriodStart && r.currentPeriodEnd == IsoFormat(today)
      && r.previousPeriodStart == c.previousPeriodStart && r.previousPeriodEnd == c.previousPeriodEnd
  {
    var c := CostDataOf(projectId, timeRange, today, env.budgetsClient, env.budgets).value;
    var gke := GkeSummary(userLocations, env.gkeClient, env.clusters).value;
    assert ProjectCostData(projectId, timeRange, today, env, Some(account)) == Returned(c);
    assert ProjectOutcome(projectId, userLocations, timeRange, today, env) == Returned(SuccessRecord(projectId, c, gke));
    CostDataProperties(projectId, timeRange, today, env.budgetsClient, env.budgets);
  }

  // ---------------------------------------------------------------------
  // run_dashboard
  // ---------------------------------------------------------------------

  /** What the loop sees of one project: the record returned, or the exception that escaped. */
  type ProjectCall = string -> Outcome<ProjectData>

  /** The command-line arguments the dashboard reads; an empty report name or type list means none. */
  datatype Args = Args(
    projects: seq<string>,
    locations: Option<seq<string>>,
    timeRange: Option<int>,
    reportName: string,
    reportTypes: seq<string>)

  datatype Headers = Headers(previousName: string, currentName: string, previousDates: string, currentDates: string)

  /** A report written: the CSV file's rows, or the records dumped as JSON. */
  datatype Export = CsvExport(table: seq<seq<string>>) | JsonExport(records: seq<ProjectData>)

  /** The exit code, the records collected, the headers chosen (none on an early exit) and the reports written. */
  datatype DashboardResult = DashboardResult(exitCode: int, records: seq<ProjectData>, headers: Option<Headers>, exports: seq<Export>)

  const DefaultHeaders: Headers := Headers(DefaultPreviousName, DefaultCurrentName, NotAvailable, NotAvailable)

  /** The record appended for one project's outcome. */
  function RecordFor(projectId: string, outcome: Outcome<ProjectData>): ProjectData {
    match outcome
    case Returned(d) => d
    case RaisedCredential => AuthErrorRecord(projectId)
    case RaisedOther(m) => UnexpectedErrorRecord(projectId, m)
  }

  /** `export_data`: one record per attempted project, stopping after the first escaping credential error. */
  function Records(projects: seq<string>, call: ProjectCall): seq<ProjectData>
    decreases |projects|
  {
    if projects == [] then []
    else
      var outcome := call(projects[0]);
      [RecordFor(projects[0], outcome)] + (if outcome.RaisedCredential? then [] else Records(projects[1..], call))
  }

  /** Some project's call lets a credential error escape. */
  predicate Aborts(projects: seq<string>, call: ProjectCall) {
    exists i :: 0 <= i < |projects| && call(projects[i]).RaisedCredential?
  }

  /** The position of the first successful record, or the length when there is none. */
  function FirstSuccessIndex(records: seq<ProjectData>): (k: nat)
    ensures k <= |records|
    ensures k < |records| ==> records[k].success
    ensures forall j :: 0 <= j < k ==> !records[j].success
    decreases |records|
  {
    if records == [] || records[0].success then 0
    else
      var k := FirstSuccessIndex(records[1..]);
      assert forall j :: 1 <= j < k + 1 ==> records[j] == records[1..][j - 1];
      k + 1
  }

  /** `first_project_data`. */
  function FirstSuccess(records: seq<ProjectData>): Option<ProjectData> {
    var k := FirstSuccessIndex(records);
    if k < |records| then Some(records[k]) else None
  }

  /** The headers: names and `start to end` dates of the first success, otherwise the defaults. */
  function HeadersOf(first: Option<ProjectData>): Headers {
    match first
    case None => DefaultHeaders
    case Some(d) =>
      Headers(d.previousPeriodName, d.currentPeriodName,
              d.previousPeriodStart + " to " + d.previousPeriodEnd,
              d.currentPeriodStart + " to " + d.currentPeriodEnd)
  }

  /** The report one requested type produces; unknown types produce none. */
  function ExportFor(reportType: string, records: seq<ProjectData>, headers: Headers): seq<Export> {
    if reportType == "csv" then [CsvExport(CsvTable(records, headers.previousDates, headers.currentDates))]
    else if reportType == "json" then [JsonExport(records)]
    else []
  }

  /** The reports for the requested types, in order. */
  function ExportsOf(reportTypes: seq<string>, records: seq<ProjectData>, headers: Headers): seq<Export>
    decreases |reportTypes|
  {
    if reportTypes == [] then []
    else
      var n := |reportTypes|;
      ExportsOf(reportTypes[..n - 1], records, headers) + ExportFor(reportTypes[n - 1], records, headers)
  }

  /** What `run_dashboard` returns and produces. */
  function Dashboard(args: Args, call: ProjectCall): DashboardResult {
    if args.projects == [] then DashboardResult(1, [], None, [])
    else
      var records := Records(args.projects, call);
      var headers := HeadersOf(FirstSuccess(records));
      var exports := if args.reportName != "" && args.reportTypes != [] then ExportsOf(args.reportTypes, records, headers) else [];
      DashboardResult(if Aborts(args.projects, call) then 1 else 0, records, Some(headers), exports)
  }

  lemma FirstSuccessAppend(records: seq<ProjectData>, d: ProjectData)
    ensures FirstSuccess(records + [d]) ==
      if FirstSuccess(records).Some? then FirstSuccess(records) else if d.success then Some(d) else None
  {
    var s := records + [d];
    assert forall j :: 0 <= j < |records| ==> s[j] == records[j];
    assert s[|records|] == d;
  }

  /** One step of the loop: the record for project `i` extends the records collected so far. */
  lemma RecordsStep(projects: seq<string>, i: int, call: ProjectCall, collected: seq<ProjectData>)
    requires 0 <= i < |projects|
    requires collected + Records(projects[i..], call) == Records(projects, call)
    ensures call(projects[i]).RaisedCredential? ==>
      collected + [RecordFor(projects[i], call(projects[i]))] == Records(projects, call) && Aborts(projects, call)
    ensures !call(projects[i]).RaisedCredential? ==>
      collected + [RecordFor(projects[i], call(projects[i]))] + Records(projects[i + 1..], call) == Records(projects, call)
  {
    if call(projects[i]).RaisedCredential? {
      RecordsStepAbort(projects, i, call, collected);
    } else {
      RecordsStepContinue(projects, i, call, collected);
    }
  }

  /** A credential error escaping at project `i` ends the records with its auth-error record. */
  lemma RecordsStepAbort(projects: seq<string>, i: int, call: ProjectCall, collected: seq<ProjectData>)
    requires 0 <= i < |projects| && call(projects[i]).RaisedCredential?
    requires collected + Records(projects[i..], call) == Records(projects, call)
    ensures collected + [RecordFor(projects[i], call(projects[i]))] == Records(projects, call) && Aborts(projects, call)
  {
    var rest := projects[i..];
    RecordsUnfold(rest, call);
    assert rest[0] == projects[i];
    var record := RecordFor(projects[i], call(projects[i]));
    assert Records(rest, call) == [record] + [] == [record];
  }

  /** Otherwise the record for project `i` is followed by those of the later projects. */
  lemma RecordsStepContinue(projects: seq<string>, i: int, call: ProjectCall, collected: seq<ProjectData>)
    requires 0 <= i < |projects| && !call(projects[i]).RaisedCredential?
    requires collected + Records(projects[i..], call) == Records(projects, call)
    ensures collected + [RecordFor(projects[i], call(projects[i]))] + Records(projects[i + 1..], call) == Records(projects, call)
  {
    var rest := projects[i..];
    RecordsUnfold(rest, call);
    assert rest[0] == projects[i] && rest[1..] == projects[i + 1..];
    var record := RecordFor(projects[i], call(projects[i]));
    var later := Records(projects[i + 1..], call);
    assert Records(rest, call) == [record] + later;
    ConcatAssoc(collected, [record], later);
  }

  lemma ConcatAssoc(a: seq<ProjectData>, b: seq<ProjectData>, c: seq<ProjectData>)
    ensures a + b + c == a + (b + c)
  {
  }

  /** The first project's record, then the rest unless its call let a credential error escape. */
  lemma RecordsUnfold(ps: seq<string>, call: ProjectCall)
    requires ps != []
    ensures Records(ps, call) ==
      [RecordFor(ps[0], call(ps[0]))] + (if call(ps[0]).RaisedCredential? then [] else Records(ps[1..], call))
  {
  }

  /** `run_dashboard`: the loop that appends records, remembers the first success and breaks on an auth error. */
  method RunDashboard(args: Args, call: ProjectCall) returns (result: DashboardResult)
    ensures result == Dashboard(args, call)
  {
    var projects := args.projects;
    if projects == [] {
      return DashboardResult(1, [], None, []);
    }
    var exportData, firstProjectData, authErrorEncountered := CollectRecords(projects, call);

    var headers: Headers;
    if firstProjectData.Some? {
      var first := firstProjectData.value;
      headers := Headers(first.previousPeriodName, first.currentPeriodName,
                         first.previousPeriodStart + " to " + first.previousPeriodEnd,
                         first.currentPeriodStart + " to " + first.currentPeriodEnd);
    } else {
      headers := Headers(DefaultPreviousName, DefaultCurrentName, NotAvailable, NotAvailable);
    }

    var exports: seq<Export> := [];
    if args.reportName != "" && args.reportTypes != [] {
      exports := ExportReports(args.reportTypes, exportData, headers);
    }
    return DashboardResult(if authErrorEncountered then 1 else 0, exportData, Some(headers), exports);
  }

  /** The loop of `run_dashboard`: append each project's record, remember the first success, stop at an escaping auth error. */
  method CollectRecords(projects: seq<string>, call: ProjectCall)
    returns (exportData: seq<ProjectData>, firstProjectData: Option<ProjectData>, authErrorEncountered: bool)
    ensures exportData == Records(projects, call)
    ensures firstProjectData == FirstSuccess(exportData)
    ensures authErrorEncountered <==> Aborts(projects, call)
  {
    exportData := [];
    firstProjectData := None;
    authErrorEncountered := false;
    var i := 0;
    while i < |projects|
      invariant 0 <= i <= |projects|
      invariant exportData + Records(projects[i..], call) == Records(projects, call)
      invariant firstProjectData == FirstSuccess(exportData)
      invariant forall j :: 0 <= j < i ==> !call(projects[j]).RaisedCredential?
      invariant !authErrorEncountered
    {
      var projectId := projects[i];
      RecordsStep(projects, i, call, exportData);
      FirstSuccessAppend(exportData, RecordFor(projectId, call(projectId)));
      match call(projectId) {
        case Returned(projectData) =>
          exportData := exportData + [projectData];
          if projectData.success && firstProjectData == None {
            firstProjectData := Some(projectData);
          }
        case RaisedCredential =>
          authErrorEncountered := true;
          exportData := exportData + [AuthErrorRecord(projectId)];
          break;
        case RaisedOther(message) =>
          exportData := exportData + [UnexpectedErrorRecord(projectId, message)];
      }
      i := i + 1;
    }
    assert projects[|projects|..] == [];
  }

  /** The export loop: one report per requested `csv` or `json` type, in order. */
  method ExportReports(types: seq<string>, records: seq<ProjectData>, headers: Headers) returns (exports: seq<Export>)
    ensures exports == ExportsOf(types, records, headers)
  {
    exports := [];
    for k := 0 to |types|
      invariant exports == ExportsOf(types[..k], records, headers)
    {
      assert types[..k + 1][..k] == types[..k];
      if types[k] == "csv" {
        exports := exports + [CsvExport(CsvTable(records, headers.previousDates, headers.currentDates))];
      } else if types[k] == "json" {
        exports := exports + [JsonExport(records)];
      }
    }
    assert types[..|types|] == types;
  }

  // ---------------------------------------------------------------------
  // Properties of the driver
  // ---------------------------------------------------------------------

  /** The records follow the projects in order, one per attempted project. */
  lemma {:induction false} RecordsOrder(projects: seq<string>, call: ProjectCall)
    ensures var r := Records(projects, call);
      && |r| <= |projects|
      && forall i :: 0 <= i < |r| ==> r[i] == RecordFor(projects[i], call(projects[i]))
    decreases |projects|
  {
    if projects != [] {
      var rest := projects[1..];
      RecordsOrder(rest, call);
      var r := Records(projects, call);
      if !call(projects[0]).RaisedCredential? {
        var tail := Records(rest, call);
        assert r == [RecordFor(projects[0], call(projects[0]))] + tail;
        assert forall i :: 1 <= i < |r| ==> r[i] == tail[i - 1] && projects[i] == rest[i - 1];
      }
    }
  }

  /**
   * An escaping credential error is the last project attempted, and without
   * one every project is attempted.
   */
  lemma {:induction false} RecordsStop(projects: seq<string>, call: ProjectCall)
    ensures var r := Records(projects, call);
      && |r| <= |projects|
      && (forall i :: 0 <= i < |r| - 1 ==> !call(projects[i]).RaisedCredential?)
      && (Aborts(projects, call) <==> r != [] && call(projects[|r| - 1]).RaisedCredential?)
      && (!Aborts(projects, call) ==> |r| == |projects|)
    decreases |projects|
  {
    if projects != [] {
      var rest := projects[1..];
      RecordsStop(rest, call);
      if !call(projects[0]).RaisedCredential? {
        assert forall i :: 1 <= i < |projects| ==> projects[i] == rest[i - 1];
        assert Aborts(projects, call) <==> Aborts(rest, call) by {
          if Aborts(projects, call) {
            var i :| 0 <= i < |projects| && call(projects[i]).RaisedCredential?;
            assert call(rest[i - 1]).RaisedCredential?;
          }
          if Aborts(rest, call) {
            var i :| 0 <= i < |rest| && call(rest[i]).RaisedCredential?;
            assert call(projects[i + 1]).RaisedCredential?;
          }
        }
      }
    }
  }

  /** The exit code is 1 exactly when there is no project or a credential error escaped a call. */
  lemma DashboardExitCode(args: Args, call: ProjectCall)
    ensures var r := Dashboard(args, call);
      && (r.exitCode == 1 <==> args.projects == [] || Aborts(args.projects, call))
      && (r.exitCode == 0 <==> !(args.projects == [] || Aborts(args.projects, call)))
  {
  }

  /** An empty project list ends the run before any project is attempted. */
  lemma EmptyProjects(args: Args, call: ProjectCall)
    requires args.projects == []
    ensures Dashboard(args, call) == DashboardResult(1, [], None, [])
  {
  }

  /** An exception other than a credential error that escapes a call gives the unexpected-error record, and the loop goes on. */
  lemma UnexpectedErrorContinues(projects: seq<string>, call: ProjectCall, i: int)
    requires 0 <= i < |projects| && i < |Records(projects, call)| && call(projects[i]).RaisedOther?
    ensures Records(projects, call)[i] == UnexpectedErrorRecord(projects[i], call(projects[i]).message)
    ensures i + 1 < |projects| ==> i + 1 < |Records(projects, call)|
  {
    RecordsOrder(projects, call);
    RecordsStop(projects, call);
  }

  /**
   * The headers come from the first successful record, as that record's
   * names and `start to end` dates; with no successful record they are the
   * defaults.
   */
  lemma DashboardHeaders(args: Args, call: ProjectCall)
    requires args.projects != []
    ensures var r := Dashboard(args, call);
      && r.headers.Some?
      && ((forall i :: 0 <= i < |r.records| ==> !r.records[i].success) ==> r.headers.value == DefaultHeaders)
      && (forall k :: 0 <= k < |r.records| && r.records[k].success && (forall j :: 0 <= j < k ==> !r.records[j].success) ==>
            var d := r.records[k];
            r.headers.value == Headers(d.previousPeriodName, d.currentPeriodName,
                                       d.previousPeriodStart + " to " + d.previousPeriodEnd,
                                       d.currentPeriodStart + " to " + d.currentPeriodEnd))
  {
    var records := Records(args.projects, call);
    var first := FirstSuccessIndex(records);
    forall k | 0 <= k < |records| && records[k].success && (forall j :: 0 <= j < k ==> !records[j].success)
      ensures first == k
    {
      assert first <= k;
      assert !(first < k);
    }
  }

  /**
   * The CSV header dates are equal, so the two period columns collide, when
   * no record succeeded or when the first success is a project without a
   * billing account.
   */
  lemma HeaderDatesCollide(args: Args, call: ProjectCall)
    requires args.projects != []
    requires var first := FirstSuccess(Records(args.projects, call));
      first.None? ||
      (first.value.previousPeriodStart == first.value.currentPeriodStart && first.value.previousPeriodEnd == first.value.currentPeriodEnd)
    ensures var result := Dashboard(args, call);
      var h := result.headers.value;
      && h.previousDates == h.currentDates
      && forall i :: 0 <= i < |result.records| ==>
           && CsvTable(result.records, h.previousDates, h.currentDates)[i + 1][1] == Dollars(result.records[i].currentPeriodCost)
           && CsvTable(result.records, h.previousDates, h.currentDates)[i + 1][2] == Dollars(result.records[i].currentPeriodCost)
  {
    var result := Dashboard(args, call);
    CsvTableCollision(result.records, result.headers.value.previousDates);
  }

  /**
   * A successful record's two date ranges print alike exactly when the
   * project has no billing account (both are `N/A`) or the window is `-1`
   * days; this is the condition under which the first success makes the
   * CSV columns collide.
   */
  lemma SuccessDatesCollide(projectId: string, userLocations: Option<seq<string>>, timeRange: Option<int>,
                            today: ValidDate, env: ProjectEnv)
    requires ProjectOutcome(projectId, userLocations, timeRange, today, env).Returned?
    ensures var d := ProjectOutcome(projectId, userLocations, timeRange, today, env).value;
      d.previousPeriodStart + " to " + d.previousPeriodEnd == d.currentPeriodStart + " to " + d.currentPeriodEnd
      <==> !HasBillingAccount(env) || timeRange == Some(-1)
  {
    if HasBillingAccount(env) {
      CostDataDatesCollide(projectId, timeRange, today, env.budgetsClient, env.budgets);
    }
  }

  /** Each report is the CSV table or the JSON dump of the records, at most one per requested type. */
  lemma {:induction false} ExportsKinds(types: seq<string>, records: seq<ProjectData>, headers: Headers)
    ensures |ExportsOf(types, records, headers)| <= |types|
    ensures forall x :: x in ExportsOf(types, records, headers) ==>
      x == CsvExport(CsvTable(records, headers.previousDates, headers.currentDates)) || x == JsonExport(records)
    decreases |types|
  {
    if types != [] {
      var n := |types|;
      var prefix := types[..n - 1];
      ExportsKinds(prefix, records, headers);
      var last := ExportFor(types[n - 1], records, headers);
      assert forall x :: x in ExportsOf(types, records, headers) ==> x in ExportsOf(prefix, records, headers) || x in last;
    }
  }

  /** No report is written exactly when no requested type is `csv` or `json`. */
  lemma {:induction false} ExportsEmpty(types: seq<string>, records: seq<ProjectData>, headers: Headers)
    ensures ExportsOf(types, records, headers) == [] <==>
      forall i :: 0 <= i < |types| ==> types[i] != "csv" && types[i] != "json"
    decreases |types|
  {
    if types != [] {
      var n := |types|;
      var prefix := types[..n - 1];
      ExportsEmpty(prefix, records, headers);
      assert forall i :: 0 <= i < n - 1 ==> prefix[i] == types[i];
    }
  }

  /** Reports are written only when a report name and at least one report type are given. */
  lemma DashboardExports(args: Args, call: ProjectCall)
    ensures var r := Dashboard(args, call);
      && (args.reportName == "" || args.reportTypes == [] ==> r.exports == [])
      && (args.projects != [] && args.reportName != "" ==>
            r.exports == ExportsOf(args.reportTypes, r.records, r.headers.value))
  {
  }

  // ---------------------------------------------------------------------
  // The unreachable abort
  // ---------------------------------------------------------------------

  /** The loop's view of `process_single_project` as written: it always returns a record. */
  function AsWrittenCall(userLocations: Option<seq<string>>, timeRange: Option<int>, today: ValidDate,
                         env: string -> ProjectEnv): ProjectCall
  {
    p => Returned(ProcessSingleProject(p, userLocations, timeRange, today, env(p)))
  }

  /**
   * `process_single_project` without its `DefaultCredentialsError` handler:
   * the credential error escapes to the loop, which builds the same record
   * and stops.
   */
  function CorrectedOutcome(projectId: string, userLocations: Option<seq<string>>, timeRange: Option<int>,
                            today: ValidDate, env: ProjectEnv): Outcome<ProjectData>
  {
    match ProjectOutcome(projectId, userLocations, timeRange, today, env)
    case Returned(d) => Returned(d)
    case RaisedCredential => RaisedCredential
    case RaisedOther(m) => Returned(ErrorRecord(projectId, m))
  }

  function CorrectedCall(userLocations: Option<seq<string>>, timeRange: Option<int>, today: ValidDate,
                         env: string -> ProjectEnv): ProjectCall
  {
    p => CorrectedOutcome(p, userLocations, timeRange, today, env(p))
  }

  /** The correction changes no record: the loop builds for an escaping credential error the record the handler built. */
  lemma CorrectedSameRecord(projectId: string, userLocations: Option<seq<string>>, timeRange: Option<int>,
                            today: ValidDate, env: ProjectEnv)
    ensures RecordFor(projectId, CorrectedOutcome(projectId, userLocations, timeRange, today, env)) ==
      ProcessSingleProject(projectId, userLocations, timeRange, today, env)
    ensures CorrectedOutcome(projectId, userLocations, timeRange, today, env).RaisedCredential? <==>
      ProjectOutcome(projectId, userLocations, timeRange, today, env).RaisedCredential?
  {
  }

  /** As written, no call lets a credential error escape: the run never aborts and exits 0 whenever there are projects. */
  lemma AsWrittenNeverAborts(args: Args, today: ValidDate, env: string -> ProjectEnv)
    ensures var call := AsWrittenCall(args.locations, args.timeRange, today, env);
      && !Aborts(args.projects, call)
      && |Records(args.projects, call)| == |args.projects|
      && (args.projects != [] ==> Dashboard(args, call).exitCode == 0)
  {
    RecordsStop(args.projects, AsWrittenCall(args.locations, args.timeRange, today, env));
  }

  /**
   * The input that shows it: every billing lookup fails for want of
   * credentials, yet every project is attempted, each gets the auth-error
   * record, and the exit code is 0.
   */
  lemma AsWrittenAuthFailureExitsZero(args: Args, today: ValidDate, env: string -> ProjectEnv)
    requires args.projects != []
    requires forall p :: env(p).billing == BillingCredentialError
    ensures var r := Dashboard(args, AsWrittenCall(args.locations, args.timeRange, today, env));
      && r.exitCode == 0
      && |r.records| == |args.projects|
      && forall i :: 0 <= i < |r.records| ==> r.records[i] == AuthErrorRecord(args.projects[i])
  {
    var call := AsWrittenCall(args.locations, args.timeRange, today, env);
    AsWrittenNeverAborts(args, today, env);
    RecordsOrder(args.projects, call);
    forall i | 0 <= i < |args.projects|
      ensures ProcessSingleProject(args.projects[i], args.locations, args.timeRange, today, env(args.projects[i])) == AuthErrorRecord(args.projects[i])
    {
      CredentialErrorRecord(args.projects[i], args.locations, args.timeRange, today, env(args.projects[i]));
    }
  }

  /**
   * Corrected, a credential failure at the first project stops the run
   * there with exit code 1, after that project's auth-error record.
   */
  lemma CorrectedAuthFailureAborts(args: Args, today: ValidDate, env: string -> ProjectEnv)
    requires args.projects != [] && env(args.projects[0]).billing == BillingCredentialError
    ensures var r := Dashboard(args, CorrectedCall(args.locations, args.timeRange, today, env));
      && r.exitCode == 1
      && r.records == [AuthErrorRecord(args.projects[0])]
  {
    var call := CorrectedCall(args.locations, args.timeRange, today, env);
    assert call(args.projects[0]).RaisedCredential?;
  }
}
