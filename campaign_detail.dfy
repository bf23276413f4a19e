/** The campaign detail page: which tabs a campaign's status shows, which
    actions it offers, and how the selected tab is kept among the visible ones. */
module CampaignDetail {
  import opened Wrappers
  import opened Strings

  const BaseTabs: seq<string> := ["overview", "logs"]
  const ExtendedTabs: seq<string> := ["audience", "channels", "rewards", "performance"]

  /** The statuses of a campaign that has started: they show its audience,
      channels, rewards and performance. */
  predicate HasStarted(status: string) {
    status == "Running" || status == "Paused" || status == "Completed"
  }

  /** `getVisibleTabs(status)` */
  function GetVisibleTabs(status: string): (r: seq<string>)
    ensures HasStarted(status) ==> r == ["overview", "audience", "channels", "rewards", "performance", "logs"]
    ensures !HasStarted(status) ==> r == ["overview", "logs"]
  {
    if HasStarted(status) then ["overview"] + ExtendedTabs + ["logs"] else BaseTabs
  }

  /** Every status shows the overview first and the logs last, and shows a
      tab other than those two exactly when the campaign has started. */
  lemma VisibleTabsShape(status: string, tab: string)
    ensures var tabs := GetVisibleTabs(status);
      |tabs| >= 2 && tabs[0] == "overview" && tabs[|tabs| - 1] == "logs"
      && (tab in tabs && tab != "overview" && tab != "logs" <==> HasStarted(status) && tab in ExtendedTabs)
  {
  }

  /** `header?.status ?? "Draft"`: a campaign whose header has not loaded is a draft. */
  function StatusOf(headerStatus: Option<string>): (r: string)
    ensures headerStatus.None? ==> r == "Draft"
    ensures headerStatus.Some? ==> r == headerStatus.value
  {
    headerStatus.GetOr("Draft")
  }

  /** The effect on `activeTab`: a tab the status does not show is replaced by the overview. */
  function ResetTab(status: string, activeTab: string): (r: string)
    ensures r in GetVisibleTabs(status)
    ensures r == activeTab <==> activeTab in GetVisibleTabs(status)
  {
    if activeTab in GetVisibleTabs(status) then activeTab else "overview"
  }

  /** Once reset, the tab stays: the effect does nothing on its next run. */
  lemma ResetTabStable(status: string, activeTab: string)
    ensures ResetTab(status, ResetTab(status, activeTab)) == ResetTab(status, activeTab)
  {
  }

  /** The page's tab state. */
  class DetailTabs {
    var status: string
    var activeTab: string

    ghost predicate Valid()
      reads this
    {
      activeTab in GetVisibleTabs(status)
    }

    /** A page opens on the overview. */
    constructor (headerStatus: Option<string>)
      ensures Valid() && status == StatusOf(headerStatus) && activeTab == "overview"
    {
      status := StatusOf(headerStatus);
      activeTab := "overview";
    }

    /** New data arrives and the effect runs: the tab is kept if the new
        status still shows it, otherwise the overview is selected. */
    method Reload(headerStatus: Option<string>)
      modifies this
      ensures Valid() && status == StatusOf(headerStatus)
      ensures activeTab == ResetTab(status, old(activeTab))
    {
      status := StatusOf(headerStatus);
      if !(activeTab in GetVisibleTabs(status)) {
        activeTab := "overview";
      }
    }

    /** The user picks a tab, then the effect runs. */
    method SelectTab(tab: string)
      modifies this
      ensures Valid() && status == old(status)
      ensures activeTab == ResetTab(status, tab)
    {
      activeTab := tab;
      if !(activeTab in GetVisibleTabs(status)) {
        activeTab := "overview";
      }
    }
  }

  /** The buttons `renderActionButtons` draws. */
  datatype Action = SubmitForApproval | Delete | StartCampaign | Cancel | StartNow | Pause | Resume

  /** `renderActionButtons()`: the buttons of each status, left to right. */
  function ActionsFor(status: string): (r: seq<Action>)
    ensures status == "Draft" ==> r == [SubmitForApproval, Delete]
    ensures status == "Pending_Approval" ==> r == [StartCampaign, Cancel]
    ensures status == "Scheduled" ==> r == [StartNow, Cancel]
    ensures status == "Running" ==> r == [Pause]
    ensures status == "Paused" ==> r == [Resume]
    ensures status !in {"Draft", "Pending_Approval", "Scheduled", "Running", "Paused"} ==> r == []
  {
    match status
    case "Draft" => [SubmitForApproval, Delete]
    case "Pending_Approval" => [StartCampaign, Cancel]
    case "Scheduled" => [StartNow, Cancel]
    case "Running" => [Pause]
    case "Paused" => [Resume]
    case _ => []
  }

  /** Only a draft can be deleted or submitted, a campaign can be cancelled
      only before it runs, and a completed or failed campaign offers nothing. */
  lemma ActionsByStatus(status: string)
    ensures Delete in ActionsFor(status) <==> status == "Draft"
    ensures SubmitForApproval in ActionsFor(status) <==> status == "Draft"
    ensures Cancel in ActionsFor(status) <==> status == "Pending_Approval" || status == "Scheduled"
    ensures Pause in ActionsFor(status) <==> status == "Running"
    ensures Resume in ActionsFor(status) <==> status == "Paused"
    ensures status == "Completed" || status == "Failed" ==> ActionsFor(status) == []
  {
  }

  /** A page whose header has not loaded offers the draft's buttons. */
  lemma MissingHeaderActions()
    ensures ActionsFor(StatusOf(None)) == [SubmitForApproval, Delete]
    ensures GetVisibleTabs(StatusOf(None)) == BaseTabs
  {
  }

  /** The request the detail page would submit. The page has no way to obtain
      it yet, so it is always absent. */
  const StoredPayload: Option<string> := None

  const MissingPayloadMessage := "Submit requires campaign payload. Provide payload from stored draft/config."

  /** `handleSubmitForApproval`: without a payload it throws instead of calling
      the submit endpoint; `Ok` carries the payload the endpoint would receive. */
  function HandleSubmitForApproval(payload: Option<string>): (r: Result<string>)
    ensures r.Err? <==> payload.None?
    ensures r.Err? ==> r.message == MissingPayloadMessage
    ensures r.Ok? ==> r.value == payload.value
  {
    if payload.None? then Err(MissingPayloadMessage) else Ok(payload.value)
  }

  /** With the page as it is, submitting always fails and nothing is sent. */
  lemma SubmitAlwaysFails()
    ensures HandleSubmitForApproval(StoredPayload) == Err(MissingPayloadMessage)
  {
  }

  /** `status.replace("_", " ")`: the status shown on the badge. */
  function StatusLabel(status: string): (r: string)
    ensures |r| == |status|
    ensures '_' !in status ==> r == status
  {
    ReplaceFirst(status, '_', ' ')
  }

  /** Only the first underscore becomes a space; any later one is shown as it is. */
  lemma StatusLabelFirstOnly(status: string, k: nat)
    requires k < |status|
    ensures var first := IndexOfChar(status, '_');
      (k == first ==> StatusLabel(status)[k] == ' ')
      && (k != first ==> StatusLabel(status)[k] == status[k])
  {
  }
}
