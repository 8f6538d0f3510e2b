/** The report page: the counts of `loadReportData` and the rows of `exportToCSV`. A list the server
    did not return is `None` (the `data?.filter(...).length || 0` fallbacks). */
module ReportsPage {
  import opened Wrappers
  import opened Domain
  import Seqs
  import Strings

  datatype StatusCount = StatusCount(status: ProspectStatus, count: nat)

  datatype SalesPerformance = SalesPerformance(sales: Profile, prospectsCount: nat, completedFollowUps: nat)

  datatype ReportData = ReportData(
    totalProspects: nat, totalFollowUps: nat, completedFollowUps: nat, pendingFollowUps: nat,
    prospectsByStatus: seq<StatusCount>, salesPerformance: seq<SalesPerformance>)

  predicate ProspectHasStatus(s: ProspectStatus, p: Prospect) {
    p.status == s
  }

  function StatusIs(s: ProspectStatus): Prospect -> bool {
    (p: Prospect) => ProspectHasStatus(s, p)
  }

  function OwnedBy(salesId: Id): Prospect -> bool {
    (p: Prospect) => p.salesId == salesId
  }

  function CompletedBy(salesId: Id): FollowUp -> bool {
    (f: FollowUp) => f.assignedTo == salesId && f.status == Completed
  }

  function Performance(sales: Profile, prospects: seq<Prospect>, followUps: seq<FollowUp>): SalesPerformance {
    SalesPerformance(sales, Seqs.Count(prospects, OwnedBy(sales.id)), Seqs.Count(followUps, CompletedBy(sales.id)))
  }

  /** The aggregation of `loadReportData`. */
  function Report(prospects: Option<seq<Prospect>>, followUps: Option<seq<FollowUp>>, sales: Option<seq<Profile>>)
    : (r: ReportData)
    ensures |r.prospectsByStatus| == 3
    ensures r.prospectsByStatus[0].status == MenungguFollowUp
    ensures r.prospectsByStatus[1].status == DalamFollowUp
    ensures r.prospectsByStatus[2].status == Selesai
    ensures forall i :: 0 <= i < 3 ==>
      r.prospectsByStatus[i].count == Seqs.Count(ListOr(prospects), StatusIs(r.prospectsByStatus[i].status))
    ensures r.totalProspects == |ListOr(prospects)| && r.totalFollowUps == |ListOr(followUps)|
    ensures r.completedFollowUps == Seqs.Count(ListOr(followUps), IsCompleted)
    ensures r.pendingFollowUps == Seqs.Count(ListOr(followUps), IsPending)
    ensures |r.salesPerformance| == |ListOr(sales)|
    ensures forall i :: 0 <= i < |r.salesPerformance| ==>
      r.salesPerformance[i] == Performance(ListOr(sales)[i], ListOr(prospects), ListOr(followUps))
  {
    var ps, fs, ss := ListOr(prospects), ListOr(followUps), ListOr(sales);
    ReportData(|ps|, |fs|, Seqs.Count(fs, IsCompleted), Seqs.Count(fs, IsPending),
      [StatusCount(MenungguFollowUp, Seqs.Count(ps, StatusIs(MenungguFollowUp))),
       StatusCount(DalamFollowUp, Seqs.Count(ps, StatusIs(DalamFollowUp))),
       StatusCount(Selesai, Seqs.Count(ps, StatusIs(Selesai)))],
      seq(|ss|, i requires 0 <= i < |ss| => Performance(ss[i], ps, fs)))
  }

  /** completed + pending never exceeds the total, nor do the three status counts. */
  lemma ReportBounds(prospects: Option<seq<Prospect>>, followUps: Option<seq<FollowUp>>, sales: Option<seq<Profile>>)
    ensures var r := Report(prospects, followUps, sales);
      && r.completedFollowUps + r.pendingFollowUps <= r.totalFollowUps
      && r.prospectsByStatus[0].count + r.prospectsByStatus[1].count + r.prospectsByStatus[2].count <= r.totalProspects
  {
    Seqs.DisjointCounts(ListOr(followUps), IsCompleted, IsPending);
    Seqs.DisjointCounts3(ListOr(prospects), StatusIs(MenungguFollowUp), StatusIs(DalamFollowUp), StatusIs(Selesai));
  }

  /** Nothing loaded: every count is zero and there is no performance row. */
  lemma EmptyReport()
    ensures var r := Report(None, None, None);
      && r.totalProspects == 0 && r.totalFollowUps == 0 && r.completedFollowUps == 0
      && r.pendingFollowUps == 0 && r.salesPerformance == []
      && forall i :: 0 <= i < 3 ==> r.prospectsByStatus[i].count == 0
  {
  }

  // ---------------------------------------------------------------------------------------------
  // exportToCSV

  /** `item.status.replace('_', ' ').toUpperCase()`: only the first underscore becomes a space. */
  function StatusLabel(status: string): (r: string)
    ensures |r| == |status|
  {
    Strings.ToUpper(Strings.ReplaceFirst(status, '_', ' '))
  }

  /** Only the first underscore becomes a space; a later one is kept. */
  lemma StatusLabelFirstOnly(a: string, b: string)
    requires '_' !in a
    ensures StatusLabel(a + "_" + b) == Strings.ToUpper(a) + " " + Strings.ToUpper(b)
  {
    Strings.ReplaceFirstAt(a, b, '_', ' ');
    Strings.ToUpperAppend(a + [' '], b);
    Strings.ToUpperAppend(a, [' ']);
  }

  lemma WaitingParts(a: string, b: string)
    requires a == "menunggu" && b == "follow_up"
    ensures '_' !in a && Strings.ToUpper(a) == "MENUNGGU" && Strings.ToUpper(b) == "FOLLOW_UP"
    ensures a + "_" + b == "menunggu_follow_up"
  {
  }

  /** The label of `menunggu_follow_up` keeps its second underscore. */
  lemma WaitingLabel(status: string)
    requires status == ProspectStatusText(MenungguFollowUp)
    ensures StatusLabel(status) == "MENUNGGU FOLLOW_UP"
  {
    var a, b := "menunggu", "follow_up";
    WaitingParts(a, b);
    StatusLabelFirstOnly(a, b);
  }

  const ReportHeading := "Laporan Prospek dan Follow-Up"
  const PeriodLabel := "Periode:"
  const PeriodMiddle := " s/d "
  const SummaryHeading := "RINGKASAN"
  const StatusHeading := "PROSPEK BERDASARKAN STATUS"
  const PerformanceHeading := "PERFORMA SALES"

  function StatusRow(c: StatusCount): seq<string> {
    [StatusLabel(ProspectStatusText(c.status)), Strings.NatToString(c.count)]
  }

  function PerformanceRow(p: SalesPerformance): seq<string> {
    [p.sales.fullName, Strings.NatToString(p.prospectsCount), Strings.NatToString(p.completedFollowUps)]
  }

  /** The rows of the export: eleven fixed rows, one per status, three more, one per sales user. */
  function CsvRows(start: string, end: string, d: ReportData): (rows: seq<seq<string>>)
    ensures |rows| == 11 + |d.prospectsByStatus| + 3 + |d.salesPerformance|
    ensures rows[4] == ["Total Prospek", Strings.NatToString(d.totalProspects)]
    ensures forall i :: 0 <= i < |d.prospectsByStatus| ==> rows[11 + i] == StatusRow(d.prospectsByStatus[i])
    ensures forall i :: 0 <= i < |d.salesPerformance| ==>
      rows[11 + |d.prospectsByStatus| + 3 + i] == PerformanceRow(d.salesPerformance[i])
  {
    [[ReportHeading], [PeriodLabel, start + PeriodMiddle + end], [""], [SummaryHeading],
     ["Total Prospek", Strings.NatToString(d.totalProspects)],
     ["Total Follow-Up", Strings.NatToString(d.totalFollowUps)],
     ["Follow-Up Selesai", Strings.NatToString(d.completedFollowUps)],
     ["Follow-Up Pending", Strings.NatToString(d.pendingFollowUps)],
     [""], [StatusHeading], ["Status", "Jumlah"]]
    + Seqs.Map(d.prospectsByStatus, StatusRow)
    + [[""], [PerformanceHeading], ["Nama Sales", "Total Prospek", "Follow-Up Selesai"]]
    + Seqs.Map(d.salesPerformance, PerformanceRow)
  }

  function JoinCells(row: seq<string>): string {
    Strings.Join(row, ",")
  }

  /** `.map((row) => row.join(',')).join('\n')`: the first row's cells joined by commas, then a line
      break before each further row. */
  function CsvText(rows: seq<seq<string>>): (r: string)
    ensures rows == [] ==> r == ""
    ensures |rows| == 1 ==> r == JoinCells(rows[0])
    ensures |rows| >= 2 ==> r == JoinCells(rows[0]) + "\n" + CsvText(rows[1..])
    decreases |rows|
  {
    var lines := Seqs.Map(rows, JoinCells);
    assert |rows| >= 2 ==> lines[1..] == Seqs.Map(rows[1..], JoinCells);
    Strings.Join(lines, "\n")
  }

  /** When no cell contains a line break, the export has one line per row. */
  lemma CsvLineCount(rows: seq<seq<string>>)
    requires forall i, j :: 0 <= i < |rows| && 0 <= j < |rows[i]| ==> '\n' !in rows[i][j]
    ensures rows != [] ==> multiset(CsvText(rows))['\n'] == |rows| - 1
  {
    var lines := Seqs.Map(rows, JoinCells);
    forall i | 0 <= i < |lines| ensures '\n' !in lines[i] {
      Strings.JoinAvoids(rows[i], ",", '\n');
    }
    Strings.JoinSeparatorCount(lines, '\n');
  }

  /** When no cell contains a comma, a row's line has one comma between each two cells. */
  lemma CsvCellCount(row: seq<string>)
    requires forall j :: 0 <= j < |row| ==> ',' !in row[j]
    ensures row != [] ==> multiset(JoinCells(row))[','] == |row| - 1
  {
    Strings.JoinSeparatorCount(row, ',');
  }
}
