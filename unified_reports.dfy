/** The unified reports page: node reports and flow reports, shown per tab
    and filtered by search text, type and status, with the download rule,
    the badges and the summary counts. */
module UnifiedReports {
  import opened Wrappers
  import opened Strings
  import opened Lists

  /** A report as the page's constant lists hold it. */
  datatype RawReport = RawReport(id: int, name: string, reportType: string, generated: string,
                                 size: string, status: string)

  /** A report tagged with its category, "node" or "flow". */
  datatype Report = Report(id: int, name: string, reportType: string, generated: string,
                           size: string, status: string, category: string)

  /** `reports.map(r => ({ ...r, category }))` */
  function Tag(raws: seq<RawReport>, category: string): (r: seq<Report>)
    ensures |r| == |raws|
    ensures forall i :: 0 <= i < |raws| ==>
      r[i] == Report(raws[i].id, raws[i].name, raws[i].reportType, raws[i].generated, raws[i].size,
                     raws[i].status, category)
  {
    seq(|raws|, i requires 0 <= i < |raws| =>
      Report(raws[i].id, raws[i].name, raws[i].reportType, raws[i].generated, raws[i].size,
             raws[i].status, category))
  }

  /** `allReports`: the node reports, then the flow reports, unsorted. */
  function AllReports(node: seq<RawReport>, flow: seq<RawReport>): seq<Report> {
    Tag(node, "node") + Tag(flow, "flow")
  }

  /** The list a tab starts from: node reports, flow reports, or all of them. */
  function SourceList(node: seq<RawReport>, flow: seq<RawReport>, category: Option<string>): seq<Report> {
    if category == Some("node") then Tag(node, "node")
    else if category == Some("flow") then Tag(flow, "flow")
    else AllReports(node, flow)
  }

  /** The three filter inputs of the page. */
  datatype ReportFilters = ReportFilters(searchTerm: string, typeFilter: string, statusFilter: string)

  predicate Passes(report: Report, filters: ReportFilters) {
    (Contains(ToLower(report.name), ToLower(filters.searchTerm))
     || Contains(ToLower(report.reportType), ToLower(filters.searchTerm)))
    && (filters.typeFilter == "all" || report.reportType == filters.typeFilter)
    && (filters.statusFilter == "all" || report.status == filters.statusFilter)
  }

  function PassesFn(filters: ReportFilters): Report -> bool {
    report => Passes(report, filters)
  }

  /** `getFilteredReports(category)` */
  function GetFilteredReports(node: seq<RawReport>, flow: seq<RawReport>, category: Option<string>,
                              filters: ReportFilters): (r: seq<Report>)
    ensures |r| <= |SourceList(node, flow, category)|
  {
    Filter(SourceList(node, flow, category), PassesFn(filters))
  }

  /** The tab's list keeps, in order, exactly the reports of its source list
      that match the search in name or type and the type and status filters. */
  lemma FilteredReportsExact(node: seq<RawReport>, flow: seq<RawReport>, category: Option<string>,
                             filters: ReportFilters)
    ensures forall r :: r in GetFilteredReports(node, flow, category, filters) <==>
      r in SourceList(node, flow, category)
      && (Contains(ToLower(r.name), ToLower(filters.searchTerm))
          || Contains(ToLower(r.reportType), ToLower(filters.searchTerm)))
      && (filters.typeFilter == "all" || r.reportType == filters.typeFilter)
      && (filters.statusFilter == "all" || r.status == filters.statusFilter)
    ensures IsSubseq(GetFilteredReports(node, flow, category, filters), SourceList(node, flow, category))
  {
    FilterSound(SourceList(node, flow, category), PassesFn(filters));
    FilterComplete(SourceList(node, flow, category), PassesFn(filters));
    FilterIsSubseq(SourceList(node, flow, category), PassesFn(filters));
  }

  /** The tab with all reports shows what the node tab shows followed by what
      the flow tab shows. */
  lemma AllTabIsNodeThenFlow(node: seq<RawReport>, flow: seq<RawReport>, category: Option<string>,
                             filters: ReportFilters)
    requires category != Some("node") && category != Some("flow")
    ensures GetFilteredReports(node, flow, category, filters)
         == GetFilteredReports(node, flow, Some("node"), filters) + GetFilteredReports(node, flow, Some("flow"), filters)
  {
    FilterAppend(Tag(node, "node"), Tag(flow, "flow"), PassesFn(filters));
  }

  /** Every report shown on the node or flow tab carries that tab's category. */
  lemma TabShowsItsCategory(node: seq<RawReport>, flow: seq<RawReport>, category: Option<string>,
                            filters: ReportFilters)
    requires category == Some("node") || category == Some("flow")
    ensures forall r :: r in GetFilteredReports(node, flow, category, filters) ==> r.category == category.value
  {
    FilterSound(SourceList(node, flow, category), PassesFn(filters));
  }

  // ---------------------------------------------------------------------------
  // Row rules and badges

  /** The download button is enabled only for a report that is ready. */
  predicate DownloadEnabled(report: Report): (r: bool)
    ensures r ==> StatusLabel(report.status) == "Ready" && StatusColor(report.status).Some?
  {
    report.status == "ready"
  }

  /** `getStatusBadge`'s label: the first letter upper-cased. */
  function StatusLabel(status: string): (r: string)
    ensures |r| == |status|
  {
    Capitalize(status)
  }

  /** The status label of a lower-case status reads back as the status, so
      a report can be downloaded exactly when its badge reads "Ready". */
  lemma StatusLabelReadsBack(report: Report)
    requires forall k :: 0 <= k < |report.status| ==> !IsUpperAscii(report.status[k])
    ensures ToLower(StatusLabel(report.status)) == report.status
    ensures DownloadEnabled(report) <==> StatusLabel(report.status) == "Ready"
  {
    CapitalizeReadsBack(report.status);
    if StatusLabel(report.status) == "Ready" {
      assert ToLower("Ready") == "ready";
    }
  }

  /** `colors[status]`: the class of the three known statuses, `undefined` for any other. */
  function StatusColor(status: string): Option<string> {
    match status
    case "ready" => Some("bg-success/10 text-success border-success/20")
    case "generating" => Some("bg-warning/10 text-warning border-warning/20")
    case "failed" => Some("bg-destructive/10 text-destructive border-destructive/20")
    case _ => None
  }

  const MutedTypeColor := "bg-muted/10 text-muted-foreground"

  /** `getTypeBadge`'s class: the colour of the four known types, otherwise the muted default. */
  function TypeColor(reportType: string): (r: string)
    ensures r == MutedTypeColor <==> reportType !in {"Performance", "Error", "Usage", "Flow Analysis"}
  {
    match reportType
    case "Performance" => "bg-info/10 text-info border-info/20"
    case "Error" => "bg-destructive/10 text-destructive border-destructive/20"
    case "Usage" => "bg-success/10 text-success border-success/20"
    case "Flow Analysis" => "bg-primary/10 text-primary border-primary/20"
    case _ => MutedTypeColor
  }

  /** A type gets the muted style exactly when it is none of the four known
      types, and only the known statuses are coloured. */
  lemma BadgeDefaults(reportType: string, status: string)
    ensures TypeColor(reportType) == MutedTypeColor <==>
      reportType !in {"Performance", "Error", "Usage", "Flow Analysis"}
    ensures StatusColor(status).Some? <==> status in {"ready", "generating", "failed"}
  {
  }

  // ---------------------------------------------------------------------------
  // Summary counts

  function HasStatus(status: string): Report -> bool { (r: Report) => r.status == status }

  /** `allReports.filter(r => r.status === s).length` */
  function StatusCount(node: seq<RawReport>, flow: seq<RawReport>, status: string): nat {
    |Filter(AllReports(node, flow), HasStatus(status))|
  }

  /** The counts are over every report, whatever tab or filter is chosen: the
      node reports' count plus the flow reports', and the ready count is the
      number of reports that can be downloaded. */
  lemma StatusCountSplits(node: seq<RawReport>, flow: seq<RawReport>, status: string)
    ensures StatusCount(node, flow, status)
         == |Filter(Tag(node, "node"), HasStatus(status))| + |Filter(Tag(flow, "flow"), HasStatus(status))|
    ensures StatusCount(node, flow, status) <= |node| + |flow|
  {
    FilterAppend(Tag(node, "node"), Tag(flow, "flow"), HasStatus(status));
  }

  /** Ready and generating reports are counted apart: together no more than all reports. */
  lemma ReadyAndGeneratingApart(node: seq<RawReport>, flow: seq<RawReport>)
    ensures StatusCount(node, flow, "ready") + StatusCount(node, flow, "generating") <= |node| + |flow|
  {
    assert "ready" != "generating";
    DisjointCounts(AllReports(node, flow), "ready", "generating");
  }

  lemma {:induction false} DisjointCounts(s: seq<Report>, a: string, b: string)
    requires a != b
    ensures |Filter(s, HasStatus(a))| + |Filter(s, HasStatus(b))| <= |s|
  {
    if s != [] {
      DisjointCounts(s[1..], a, b);
    }
  }

  // ---------------------------------------------------------------------------
  // The page's reports

  const NodeReports: seq<RawReport> := [
    RawReport(1, "ASN1 Decoder Performance Report", "Performance", "2024-01-15 10:00:00", "2.4 MB", "ready"),
    RawReport(2, "Enrichment BLN Error Analysis", "Error", "2024-01-15 09:30:00", "1.8 MB", "ready"),
    RawReport(3, "Validation BLN Usage Report", "Usage", "2024-01-15 08:45:00", "3.2 MB", "generating"),
    RawReport(4, "FDC Node Throughput Analysis", "Performance", "2024-01-15 08:00:00", "1.5 MB", "ready")
  ]

  const FlowReports: seq<RawReport> := [
    RawReport(5, "Charging Gateway Flow Report", "Flow Analysis", "2024-01-15 11:00:00", "4.1 MB", "ready"),
    RawReport(6, "Billing Events Processing Report", "Performance", "2024-01-15 10:15:00", "2.9 MB", "ready"),
    RawReport(7, "Payment Validation Flow Report", "Error", "2024-01-15 09:45:00", "1.7 MB", "ready"),
    RawReport(8, "Convergent Mediation Report", "Usage", "2024-01-15 09:00:00", "3.8 MB", "generating")
  ]

  /** How many of four reports pass a test. */
  lemma FilterFour(w: Report, x: Report, y: Report, z: Report, p: Report -> bool)
    ensures |Filter([w, x, y, z], p)|
         == (if p(w) then 1 else 0) + (if p(x) then 1 else 0) + (if p(y) then 1 else 0) + (if p(z) then 1 else 0)
  {
    assert [w, x, y, z] == [w] + [x, y, z];
    assert [x, y, z] == [x] + [y, z];
    assert [y, z] == [y] + [z];
    assert [z] == [z] + [];
    FilterCons(w, [x, y, z], p);
    FilterCons(x, [y, z], p);
    FilterCons(y, [z], p);
    FilterCons(z, [], p);
  }

  /** Each list has three ready reports and one being generated. */
  lemma ListCounts(raws: seq<RawReport>, category: string)
    requires raws == NodeReports || raws == FlowReports
    ensures |Filter(Tag(raws, category), HasStatus("ready"))| == 3
    ensures |Filter(Tag(raws, category), HasStatus("generating"))| == 1
  {
    var t := Tag(raws, category);
    assert t == [t[0], t[1], t[2], t[3]];
    if raws == NodeReports {
      assert t[2].status[0] == 'g';
      assert t[0].status[0] == 'r' && t[1].status[0] == 'r' && t[3].status[0] == 'r';
    } else {
      assert t[3].status[0] == 'g';
      assert t[0].status[0] == 'r' && t[1].status[0] == 'r' && t[2].status[0] == 'r';
    }
    FilterFour(t[0], t[1], t[2], t[3], HasStatus("ready"));
    FilterFour(t[0], t[1], t[2], t[3], HasStatus("generating"));
  }

  /** The summary cards of the page: 6 reports ready and 2 being generated. */
  lemma PageSummary()
    ensures StatusCount(NodeReports, FlowReports, "ready") == 6
    ensures StatusCount(NodeReports, FlowReports, "generating") == 2
  {
    StatusCountSplits(NodeReports, FlowReports, "ready");
    StatusCountSplits(NodeReports, FlowReports, "generating");
    ListCounts(NodeReports, "node");
    ListCounts(FlowReports, "flow");
  }
}
