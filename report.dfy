/**
 * The report screen of the mobile app: a list of recently generated reports,
 * the choices in the Generate dialog, and the generate and delete operations.
 */
module Reports {
  import opened Options
  import opened Sequences
  import opened Text
  import Calendar

  datatype ReportType = ProfitLoss | CashFlow | ExpenseAnalysis

  datatype Report = Report(id: int, name: string, date: string, format: string, reportType: ReportType)

  /** `reportTitles`: the name a generated report of each type gets. */
  function Title(t: ReportType): (s: string)
    ensures s != ""
  {
    match t
    case ProfitLoss => "Profit & Loss Statement"
    case CashFlow => "Cash Flow Report"
    case ExpenseAnalysis => "Expense Analysis"
  }

  /** The three titles are distinct, so a report's name tells its type. */
  lemma TitlesDistinct(a: ReportType, b: ReportType)
    ensures Title(a) == Title(b) <==> a == b
  {
  }

  /** The guard of generateReport: a type is chosen, and a custom period has both dates. */
  predicate CanGenerate(reportType: Option<ReportType>, period: string, customStart: string, customEnd: string) {
    reportType.Some? && !(period == "custom" && (customStart == "" || customEnd == ""))
  }

  function HasOtherId(id: int): Report -> bool {
    (r: Report) => r.id != id
  }

  /** The ids are pairwise distinct and lie in 1..n for a list of n reports, as the initial list's 1, 2 do. */
  ghost predicate IdsInRange(reports: seq<Report>) {
    && (forall k :: 0 <= k < |reports| ==> 1 <= reports[k].id <= |reports|)
    && (forall i, j :: 0 <= i < j < |reports| ==> reports[i].id != reports[j].id)
  }

  /** Without deletions, prepending with `length + 1` keeps the ids distinct and in range, and the new id is fresh. */
  lemma PrependKeepsIdsInRange(reports: seq<Report>, r: Report)
    requires IdsInRange(reports) && r.id == |reports| + 1
    ensures IdsInRange([r] + reports)
    ensures forall k :: 0 <= k < |reports| ==> reports[k].id != r.id
  {
    var s := [r] + reports;
    forall i, j | 0 <= i < j < |s| ensures s[i].id != s[j].id {
      assert s[j] == reports[j - 1];
      if i > 0 {
        assert s[i] == reports[i - 1];
      }
    }
  }

  /** After deleting report 1 from the initial list, `length + 1` is 2, the id of the report that is left. */
  lemma PrependAfterDeleteRepeatsId()
    ensures var reports := [
              Report(1, "January 2024 P&L Statement", "2024-01-15", "pdf", ProfitLoss),
              Report(2, "Q4 2023 Cash Flow Report", "2024-01-08", "excel", CashFlow)];
            var left := Filter(reports, HasOtherId(1));
            left == [reports[1]] && |left| + 1 == left[0].id
  {
    var reports := [
      Report(1, "January 2024 P&L Statement", "2024-01-15", "pdf", ProfitLoss),
      Report(2, "Q4 2023 Cash Flow Report", "2024-01-08", "excel", CashFlow)];
    assert reports[1..][1..] == [];
    assert Filter(reports[1..], HasOtherId(1)) == [reports[1]];
  }

  class ReportScreen {
    var recentReports: seq<Report>
    var showReportModal: bool
    var currentReportType: Option<ReportType>
    var reportPeriod: string
    var reportFormat: string
    var customStartDate: string
    var customEndDate: string

    /** The screen as first rendered: two reports, no type chosen, this month, PDF. */
    constructor ()
      ensures recentReports == [
        Report(1, "January 2024 P&L Statement", "2024-01-15", "pdf", ProfitLoss),
        Report(2, "Q4 2023 Cash Flow Report", "2024-01-08", "excel", CashFlow)]
      ensures !showReportModal && currentReportType == None
      ensures reportPeriod == "this-month" && reportFormat == "pdf"
      ensures customStartDate == "" && customEndDate == ""
      ensures IdsInRange(recentReports)
    {
      recentReports := [
        Report(1, "January 2024 P&L Statement", "2024-01-15", "pdf", ProfitLoss),
        Report(2, "Q4 2023 Cash Flow Report", "2024-01-08", "excel", CashFlow)];
      showReportModal := false;
      currentReportType := None;
      reportPeriod := "this-month";
      reportFormat := "pdf";
      customStartDate := "";
      customEndDate := "";
    }

    /** The Generate button: open the dialog. */
    method OpenDialog()
      modifies this`showReportModal
      ensures showReportModal
    {
      showReportModal := true;
    }

    /** The dialog's pickers and date fields. */
    method Choose(reportType: Option<ReportType>, period: string, format: string, customStart: string, customEnd: string)
      modifies this`currentReportType, this`reportPeriod, this`reportFormat, this`customStartDate, this`customEndDate
      ensures currentReportType == reportType && reportPeriod == period
      ensures reportFormat == format && customStartDate == customStart && customEndDate == customEnd
    {
      currentReportType := reportType;
      reportPeriod := period;
      reportFormat := format;
      customStartDate := customStart;
      customEndDate := customEnd;
    }

    /**
     * `generateReport`, given the current time `now`: refuse without a type or
     * with a custom period missing a date; otherwise put one new report, dated
     * `now.toISOString().split('T')[0]`, in front of the old ones and close the
     * dialog.
     */
    method GenerateReport(now: Calendar.Instant) returns (ok: bool)
      modifies this`recentReports, this`showReportModal
      ensures ok == CanGenerate(currentReportType, reportPeriod, customStartDate, customEndDate)
      ensures !ok ==> unchanged(this)
      ensures ok ==> |recentReports| == |old(recentReports)| + 1 && recentReports[1..] == old(recentReports)
      ensures ok ==> recentReports[0] == Report(|old(recentReports)| + 1, Title(currentReportType.value),
                                                Calendar.IsoDate(now), reportFormat, currentReportType.value)
      ensures ok ==> !showReportModal
      ensures IdsInRange(old(recentReports)) ==> IdsInRange(recentReports)
      ensures ok && IdsInRange(old(recentReports)) ==>
        forall k :: 0 <= k < |old(recentReports)| ==> old(recentReports)[k].id != recentReports[0].id
    {
      if currentReportType.None? || (reportPeriod == "custom" && (customStartDate == "" || customEndDate == "")) {
        return false;
      }
      Calendar.IsoStringDatePart(now);
      var newReport := Report(|recentReports| + 1, Title(currentReportType.value),
                              BeforeFirst(Calendar.ToIsoString(now), 'T'), reportFormat, currentReportType.value);
      if IdsInRange(recentReports) {
        PrependKeepsIdsInRange(recentReports, newReport);
      }
      recentReports := [newReport] + recentReports;
      showReportModal := false;
      ok := true;
    }

    /** The confirmed branch of `deleteReport`: drop every report with the id. */
    method DeleteReport(id: int)
      modifies this`recentReports
      ensures recentReports == Filter(old(recentReports), HasOtherId(id))
      ensures forall k :: 0 <= k < |recentReports| ==> recentReports[k].id != id && recentReports[k] in old(recentReports)
      ensures forall k :: 0 <= k < |old(recentReports)| && old(recentReports)[k].id != id ==>
        old(recentReports)[k] in recentReports
    {
      recentReports := Filter(recentReports, HasOtherId(id));
    }
  }

  /** A custom period without an end date is refused; with both dates the report comes first with id 3. */
  method GenerateScenario()
  {
    var screen := new ReportScreen();
    screen.OpenDialog();
    screen.Choose(Some(ExpenseAnalysis), "custom", "excel", "2024-01-01", "");
    var now := Calendar.Instant(2024, 2, 1, 9, 30, 0, 0);
    var ok := screen.GenerateReport(now);
    assert !ok && |screen.recentReports| == 2 && screen.showReportModal;
    screen.Choose(Some(ExpenseAnalysis), "custom", "excel", "2024-01-01", "2024-01-31");
    ok := screen.GenerateReport(now);
    assert ok && screen.recentReports[0] == Report(3, "Expense Analysis", Calendar.IsoDate(now), "excel", ExpenseAnalysis);
    assert !screen.showReportModal;
  }
}
