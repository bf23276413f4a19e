/** The unified alerts page: flow alerts and node alerts, shown per tab and
    filtered by search text, severity and status, with badges and summary
    counts. Timestamps are numbers: what `new Date(t).getTime()` gives for
    the page's date texts. */
module UnifiedAlerts {
  import opened Wrappers
  import opened Strings
  import opened Lists

  /** An alert as the page's constant lists hold it; `origin` is its flow or its node. */
  datatype RawAlert = RawAlert(id: int, title: string, severity: string, origin: string,
                               timestamp: int, status: string)

  /** An alert tagged with its type, the origin copied to `source`. */
  datatype Alert = Alert(id: int, title: string, severity: string, timestamp: int, status: string,
                         alertType: string, source: string)

  /** `alerts.map(a => ({ ...a, type, source: a.flow }))` (or `a.node`). */
  function Tag(raws: seq<RawAlert>, alertType: string): (r: seq<Alert>)
    ensures |r| == |raws|
    ensures forall i :: 0 <= i < |raws| ==>
      r[i] == Alert(raws[i].id, raws[i].title, raws[i].severity, raws[i].timestamp, raws[i].status,
                    alertType, raws[i].origin)
  {
    seq(|raws|, i requires 0 <= i < |raws| =>
      Alert(raws[i].id, raws[i].title, raws[i].severity, raws[i].timestamp, raws[i].status,
            alertType, raws[i].origin))
  }

  /** The sort key of `sort((a, b) => time(b) - time(a))`: the newest first. */
  function Newest(a: Alert): int { -a.timestamp }

  /** `allAlerts`: both lists tagged, flow alerts first, sorted newest first
      by a stable sort. */
  function AllAlerts(flow: seq<RawAlert>, node: seq<RawAlert>): (r: seq<Alert>)
    ensures |r| == |flow| + |node|
    ensures forall a :: a in r <==> a in Tag(flow, "flow") || a in Tag(node, "node")
  {
    var r := SortBy(Tag(flow, "flow") + Tag(node, "node"), Newest);
    assert forall a :: a in r <==> a in multiset(Tag(flow, "flow") + Tag(node, "node"));
    r
  }

  /** The merged list holds every alert of both lists once, newest first. */
  lemma AllAlertsNewestFirst(flow: seq<RawAlert>, node: seq<RawAlert>)
    ensures var all := AllAlerts(flow, node);
      |all| == |flow| + |node|
      && multiset(all) == multiset(Tag(flow, "flow") + Tag(node, "node"))
      && (forall i, j :: 0 <= i < j < |all| ==> all[i].timestamp >= all[j].timestamp)
  {
    var all := AllAlerts(flow, node);
    forall i, j | 0 <= i < j < |all| ensures all[i].timestamp >= all[j].timestamp {
      assert Newest(all[i]) <= Newest(all[j]);
    }
  }

  /** Alerts with the same time keep their order in the merged list: flow
      alerts before node alerts, each list in its own order. */
  lemma AllAlertsStable(flow: seq<RawAlert>, node: seq<RawAlert>, k: int)
    ensures Filter(AllAlerts(flow, node), HasKey(Newest, k))
         == Filter(Tag(flow, "flow"), HasKey(Newest, k)) + Filter(Tag(node, "node"), HasKey(Newest, k))
  {
    SortByStable(Tag(flow, "flow") + Tag(node, "node"), Newest, k);
    FilterAppend(Tag(flow, "flow"), Tag(node, "node"), HasKey(Newest, k));
  }

  /** The list a tab starts from: flow alerts, node alerts, or all of them newest first. */
  function SourceList(flow: seq<RawAlert>, node: seq<RawAlert>, tab: Option<string>): seq<Alert> {
    if tab == Some("flow") then Tag(flow, "flow")
    else if tab == Some("node") then Tag(node, "node")
    else AllAlerts(flow, node)
  }

  /** The three filter inputs of the page. */
  datatype AlertFilters = AlertFilters(searchTerm: string, severityFilter: string, statusFilter: string)

  predicate Passes(alert: Alert, filters: AlertFilters) {
    (Contains(ToLower(alert.title), ToLower(filters.searchTerm))
     || Contains(ToLower(alert.source), ToLower(filters.searchTerm)))
    && (filters.severityFilter == "all" || alert.severity == filters.severityFilter)
    && (filters.statusFilter == "all" || alert.status == filters.statusFilter)
  }

  function PassesFn(filters: AlertFilters): Alert -> bool {
    alert => Passes(alert, filters)
  }

  /** `getFilteredAlerts(type)` */
  function GetFilteredAlerts(flow: seq<RawAlert>, node: seq<RawAlert>, tab: Option<string>,
                             filters: AlertFilters): (r: seq<Alert>)
    ensures |r| <= |SourceList(flow, node, tab)|
  {
    Filter(SourceList(flow, node, tab), PassesFn(filters))
  }

  /** The tab's list keeps, in order, exactly the alerts of its source list
      that match the search in title or source and the severity and status filters. */
  lemma FilteredAlertsExact(flow: seq<RawAlert>, node: seq<RawAlert>, tab: Option<string>, filters: AlertFilters)
    ensures forall a :: a in GetFilteredAlerts(flow, node, tab, filters) <==>
      a in SourceList(flow, node, tab)
      && (Contains(ToLower(a.title), ToLower(filters.searchTerm))
          || Contains(ToLower(a.source), ToLower(filters.searchTerm)))
      && (filters.severityFilter == "all" || a.severity == filters.severityFilter)
      && (filters.statusFilter == "all" || a.status == filters.statusFilter)
    ensures IsSubseq(GetFilteredAlerts(flow, node, tab, filters), SourceList(flow, node, tab))
  {
    FilterSound(SourceList(flow, node, tab), PassesFn(filters));
    FilterComplete(SourceList(flow, node, tab), PassesFn(filters));
    FilterIsSubseq(SourceList(flow, node, tab), PassesFn(filters));
  }

  /** On the flow tab every alert shown is a flow alert whose source is its
      flow, and likewise on the node tab. */
  lemma TabShowsItsType(flow: seq<RawAlert>, node: seq<RawAlert>, tab: Option<string>, filters: AlertFilters)
    requires tab == Some("flow") || tab == Some("node")
    ensures forall a :: a in GetFilteredAlerts(flow, node, tab, filters) ==>
      a.alertType == tab.value
      && exists r :: r in (if tab == Some("flow") then flow else node) && a.source == r.origin && a.title == r.title
  {
    var src := SourceList(flow, node, tab);
    FilterSound(src, PassesFn(filters));
    forall a | a in GetFilteredAlerts(flow, node, tab, filters)
      ensures a.alertType == tab.value
      ensures exists r :: r in (if tab == Some("flow") then flow else node) && a.source == r.origin && a.title == r.title
    {
      var i :| 0 <= i < |src| && src[i] == a;
      var raws := if tab == Some("flow") then flow else node;
      assert raws[i] in raws;
    }
  }

  /** The tab with all alerts shows them newest first, whatever the filters. */
  lemma AllTabNewestFirst(flow: seq<RawAlert>, node: seq<RawAlert>, tab: Option<string>, filters: AlertFilters)
    requires tab != Some("flow") && tab != Some("node")
    ensures var r := GetFilteredAlerts(flow, node, tab, filters);
      forall i, j :: 0 <= i < j < |r| ==> r[i].timestamp >= r[j].timestamp
  {
    var r := GetFilteredAlerts(flow, node, tab, filters);
    FilterSorted(AllAlerts(flow, node), PassesFn(filters), Newest);
    forall i, j | 0 <= i < j < |r| ensures r[i].timestamp >= r[j].timestamp {
      assert Newest(r[i]) <= Newest(r[j]);
    }
  }

  // ---------------------------------------------------------------------------
  // Badges

  /** `getSeverityBadge`'s variant. */
  function SeverityVariant(severity: string): string {
    if severity == "high" then "destructive" else if severity == "medium" then "secondary" else "outline"
  }

  /** The destructive and secondary variants each belong to one severity; every other severity is outlined. */
  lemma SeverityVariantCases(severity: string)
    ensures SeverityVariant(severity) == "destructive" <==> severity == "high"
    ensures SeverityVariant(severity) == "secondary" <==> severity == "medium"
    ensures SeverityVariant(severity) == "outline" <==> severity != "high" && severity != "medium"
  {
  }

  /** `severity.toUpperCase()`: as long as the severity, in capitals, and
      reading back as the severity when that is written in lower case. */
  function SeverityLabel(severity: string): (r: string)
    ensures |r| == |severity|
    ensures forall k :: 0 <= k < |r| ==> !IsLowerAscii(r[k])
  {
    ToUpper(severity)
  }

  /** Lower-casing the severity shown gives back a lower-case severity. */
  lemma SeverityLabelReadsBack(severity: string)
    requires forall k :: 0 <= k < |severity| ==> !IsUpperAscii(severity[k])
    ensures ToLower(SeverityLabel(severity)) == severity
  {
    ToUpperReadsBack(severity);
  }

  /** `getStatusBadge`'s label: the first letter upper-cased. */
  function StatusLabel(status: string): (r: string)
    ensures |r| == |status|
  {
    Capitalize(status)
  }

  /** The status shown of a lower-case status reads back as the status. */
  lemma StatusLabelReadsBack(status: string)
    requires forall k :: 0 <= k < |status| ==> !IsUpperAscii(status[k])
    ensures ToLower(StatusLabel(status)) == status
  {
    CapitalizeReadsBack(status);
  }

  /** `colors[status]`: the class of the three known statuses, `undefined` for any other. */
  function StatusColor(status: string): Option<string> {
    match status
    case "active" => Some("bg-destructive/10 text-destructive border-destructive/20")
    case "acknowledged" => Some("bg-warning/10 text-warning border-warning/20")
    case "resolved" => Some("bg-success/10 text-success border-success/20")
    case _ => None
  }

  /** Only the three known statuses are coloured. */
  lemma StatusColorKnown(status: string)
    ensures StatusColor(status).Some? <==> status in {"active", "acknowledged", "resolved"}
  {
  }

  /** `getTypeBadge`'s shown: "Flow" for flow alerts, "Node" for anything else. */
  function TypeLabel(alertType: string): string {
    if alertType == "flow" then "Flow" else "Node"
  }

  lemma TaggedType(raws: seq<RawAlert>, alertType: string)
    ensures forall a :: a in Tag(raws, alertType) ==> a.alertType == alertType
  {
  }

  /** Every alert of the merged list is a flow or a node alert, and its badge says which. */
  lemma TypeLabelOfTagged(flow: seq<RawAlert>, node: seq<RawAlert>)
    ensures forall a :: a in AllAlerts(flow, node) ==>
      (a.alertType == "flow" || a.alertType == "node")
      && (TypeLabel(a.alertType) == "Flow" <==> a.alertType == "flow")
  {
    var both := Tag(flow, "flow") + Tag(node, "node");
    var all := AllAlerts(flow, node);
    TaggedType(flow, "flow");
    TaggedType(node, "node");
    assert multiset(all) == multiset(both);
    forall a | a in all
      ensures a.alertType == "flow" || a.alertType == "node"
    {
      assert a in multiset(all);
      assert a in both;
    }
  }

  // ---------------------------------------------------------------------------
  // Summary counts

  function HasSeverity(severity: string): Alert -> bool { (a: Alert) => a.severity == severity }
  function HasStatus(status: string): Alert -> bool { (a: Alert) => a.status == status }

  /** `allAlerts.filter(a => a.severity === s).length` */
  function SeverityCount(flow: seq<RawAlert>, node: seq<RawAlert>, severity: string): nat {
    |Filter(AllAlerts(flow, node), HasSeverity(severity))|
  }

  /** `allAlerts.filter(a => a.status === s).length` */
  function StatusCount(flow: seq<RawAlert>, node: seq<RawAlert>, status: string): nat {
    |Filter(AllAlerts(flow, node), HasStatus(status))|
  }

  /** Sorting does not change the counts: each is the flow alerts' count plus the node alerts'. */
  lemma CountsAddUp(flow: seq<RawAlert>, node: seq<RawAlert>, severity: string, status: string)
    ensures SeverityCount(flow, node, severity)
         == |Filter(Tag(flow, "flow"), HasSeverity(severity))| + |Filter(Tag(node, "node"), HasSeverity(severity))|
    ensures StatusCount(flow, node, status)
         == |Filter(Tag(flow, "flow"), HasStatus(status))| + |Filter(Tag(node, "node"), HasStatus(status))|
  {
    var both := Tag(flow, "flow") + Tag(node, "node");
    FilterCountPerm(AllAlerts(flow, node), both, HasSeverity(severity));
    FilterCountPerm(AllAlerts(flow, node), both, HasStatus(status));
    FilterAppend(Tag(flow, "flow"), Tag(node, "node"), HasSeverity(severity));
    FilterAppend(Tag(flow, "flow"), Tag(node, "node"), HasStatus(status));
  }

  /** The counts over all alerts are not above the number of alerts. */
  lemma CountsBounded(flow: seq<RawAlert>, node: seq<RawAlert>, severity: string, status: string)
    ensures SeverityCount(flow, node, severity) <= |flow| + |node|
    ensures StatusCount(flow, node, status) <= |flow| + |node|
  {
    AllAlertsNewestFirst(flow, node);
  }

  // ---------------------------------------------------------------------------
  // The page's alerts

  /** The page's flow alerts; times are minutes after midnight of 2024-01-15,
      the one day all the page's dates fall on. */
  const FlowAlerts: seq<RawAlert> := [
    RawAlert(1, "Flow Execution Failed", "high", "CHARGING_GATEWAY_MAIN", 630, "active"),
    RawAlert(2, "Performance Degradation", "medium", "BILLING_EVENTS_PROCESSOR", 555, "acknowledged"),
    RawAlert(3, "Memory Usage Warning", "low", "PAYMENT_VALIDATION", 525, "resolved")
  ]

  /** The page's node alerts, timed like `FlowAlerts`. */
  const NodeAlerts: seq<RawAlert> := [
    RawAlert(4, "Node Connection Timeout", "high", "ASN1_DECODER_NODE", 660, "active"),
    RawAlert(5, "Processing Queue Full", "medium", "ENRICHMENT_BLN_NODE", 615, "active"),
    RawAlert(6, "Resource Utilization Alert", "low", "VALIDATION_BLN_NODE", 570, "acknowledged")
  ]

  /** How many of three alerts pass a test. */
  lemma FilterThree(x: Alert, y: Alert, z: Alert, p: Alert -> bool)
    ensures |Filter([x, y, z], p)| == (if p(x) then 1 else 0) + (if p(y) then 1 else 0) + (if p(z) then 1 else 0)
  {
    assert [x, y, z] == [x] + [y, z];
    assert [y, z] == [y] + [z];
    FilterCons(x, [y, z], p);
    FilterCons(y, [z], p);
    assert [z] == [z] + [];
    FilterCons(z, [], p);
  }

  /** Per list, the alerts the summary cards count. */
  lemma FlowAlertCounts()
    ensures var f := Tag(FlowAlerts, "flow");
      |Filter(f, HasSeverity("high"))| == 1 && |Filter(f, HasSeverity("medium"))| == 1
      && |Filter(f, HasStatus("active"))| == 1 && |Filter(f, HasStatus("resolved"))| == 1
  {
    var f := Tag(FlowAlerts, "flow");
    assert f == [f[0], f[1], f[2]];
    assert f[1].severity[0] == 'm' && f[2].severity[0] == 'l';
    assert f[1].status[1] == 'c' && f[2].status[0] == 'r';
    FilterThree(f[0], f[1], f[2], HasSeverity("high"));
    FilterThree(f[0], f[1], f[2], HasSeverity("medium"));
    FilterThree(f[0], f[1], f[2], HasStatus("active"));
    FilterThree(f[0], f[1], f[2], HasStatus("resolved"));
  }

  lemma NodeAlertCounts()
    ensures var n := Tag(NodeAlerts, "node");
      |Filter(n, HasSeverity("high"))| == 1 && |Filter(n, HasSeverity("medium"))| == 1
      && |Filter(n, HasStatus("active"))| == 2 && |Filter(n, HasStatus("resolved"))| == 0
  {
    var n := Tag(NodeAlerts, "node");
    assert n == [n[0], n[1], n[2]];
    assert n[1].severity[0] == 'm' && n[2].severity[0] == 'l';
    assert n[2].status[1] == 'c';
    FilterThree(n[0], n[1], n[2], HasSeverity("high"));
    FilterThree(n[0], n[1], n[2], HasSeverity("medium"));
    FilterThree(n[0], n[1], n[2], HasStatus("active"));
    FilterThree(n[0], n[1], n[2], HasStatus("resolved"));
  }

  /** The summary cards of the page: 2 high, 2 medium, 3 active and 1 resolved alert. */
  lemma PageSummary()
    ensures SeverityCount(FlowAlerts, NodeAlerts, "high") == 2
    ensures SeverityCount(FlowAlerts, NodeAlerts, "medium") == 2
    ensures StatusCount(FlowAlerts, NodeAlerts, "active") == 3
    ensures StatusCount(FlowAlerts, NodeAlerts, "resolved") == 1
  {
    CountsAddUp(FlowAlerts, NodeAlerts, "high", "active");
    CountsAddUp(FlowAlerts, NodeAlerts, "medium", "resolved");
    FlowAlertCounts();
    NodeAlertCounts();
  }
}
