# Flow, campaign and reporting console — a verified Dafny model

This project models the logic core of a React/TypeScript operations console
for mediation flows, marketing campaigns, reward accounts, alerts and
reports. The network requests, the rendering and the hooks around that logic
are not part of the model. Each core source file becomes one or more Dafny
modules:

- **The flow layout engine** (`flowLayoutUtils.ts`) is modelled in these modules:
  - `FlowGraph` holds the graph, the id table and the insertion-ordered layout map.
  - `FlowLevels` runs the breadth-first search, as a `while` loop over a queue.
  - `FlowPositions` packs the rows in place and computes the viewport.
  - `FlowLayout` composes the steps and stacks the nodes the search did not reach.
  - `FlowCycles` is the depth-first cycle test: a class whose fields are `visited` and the recursion stack.
- **Flow data shaping**:
  - `FlowData` is `transformFlowData`/`getFlowStats`.
  - `FlowDetail` is the flow detail page's de-duplication and canvas input.
  - `Unique` is first-occurrence de-duplication through a `Map`.
  - `NodeKinds` is the ordered node-name classification.
- **Campaigns**:
  - `CampaignCreate` is the wizard's step machine, a class over `currentStep` and `formData`.
  - `CampaignForm` is the form record and its merge.
  - `CampaignMapper` is the payload mapping.
  - `CampaignDetail` covers the tabs, actions and status label of the detail page.
- **Services**:
  - `BigIds` is the long-id quoting rewrite, specified as a left-to-right scanner.
  - `Http` is the shared `handleJson` rule.
  - `CampaignApi` and `DashboardApi` cover the id normalisation and the calls' error messages.
  - `ReportApi` builds the report query and checks its responses.
- **Pages**:
  - `RewardAccounts` covers filters, the CSV export and the account form (a class).
  - `UnifiedAlerts` and `UnifiedReports` cover the tab lists, filters, badges and summary counts.
  - `NccFlows` covers filtering and pagination, with a page-state class.
  - `TaskManager` is the task list, a class.
  - `TopBar` covers nav-path matching and the theme toggle.
- **Shared helpers**:
  - `Wrappers` holds `Option` and `Result`.
  - `Strings` holds ASCII case mapping, search, trim, split/join and integer printing.
  - `Lists` holds filter and stable sort, with their lemmas.

Wherever the source changes state step by step, the model is a method with loop invariants, or a class whose methods have `modifies` clauses. Each such method is proved against a specification function, and the promised properties are lemmas about that function.

## Model

| member | source | states |
|---|---|---|
| FlowGraph.IndexNodes | src/utils/flowLayoutUtils.ts:20-26 | every input id is a key of `nodeMap`, and each key maps to an input node carrying that id |
| FlowGraph.IndexNodesLastWins | src/utils/flowLayoutUtils.ts:24-26 | when an id repeats, `nodeMap` holds its last node (`Map.set` overwrites) |
| FlowGraph.Targets | src/utils/flowLayoutUtils.ts:63-68 | the ids the search may enqueue from a node are its `to_node`s in edge order, and none when `outgoing_edges` is missing |
| FlowGraph.Universe | src/utils/flowLayoutUtils.ts:54-66 | every id the search can place (an indexed id or any edge target, dangling ones included) lies in one finite set, which bounds the loop |
| FlowLevels.Seeds | src/utils/flowLayoutUtils.ts:29-45 | the seeds are empty only for an empty input, contain every node with a missing or empty `incoming_edges`, are indexed ids, and are the first node alone when there is no root |
| FlowLevels.EnqueueTargets | src/utils/flowLayoutUtils.ts:63-68 | the queue grows by one level-(l+1) entry for each target not yet visited, in edge order |
| FlowLevels.VisitNode | src/utils/flowLayoutUtils.ts:50-69 | a dequeued new id is marked visited and gets its entry (`y = level*200+100`) before the node lookup, so a dangling target is placed too |
| FlowLevels.BfsStep | src/utils/flowLayoutUtils.ts:47-70 | one loop turn keeps the search invariant and either shrinks the set of unvisited ids or, for an already-visited id, the queue |
| FlowLevels.LevelBfs | src/utils/flowLayoutUtils.ts:38-70 | the loop terminates; `visited` equals the placed ids; every seed is at level 0; for each placed u and successor v, v is placed with level(v) ≤ level(u)+1; every placed non-seed id has a placed predecessor one level up |
| FlowLevels.LevelAtMostPathLength | src/utils/flowLayoutUtils.ts:43-70 | an id reachable from a seed along k edges is placed at a level of at most k |
| FlowLevels.PathOfLevelLength | src/utils/flowLayoutUtils.ts:43-70 | every placed id is reached from a seed by a path whose edge count is exactly its level, so levels are breadth-first distances |
| FlowLayout.MaxLevel | src/utils/flowLayoutUtils.ts:75 | `Math.max(...levels, -1)`: -1 exactly for an empty map, otherwise an upper bound of every level |
| FlowLayout.MaxLevelAttained | src/utils/flowLayoutUtils.ts:75 | the maximum is attained: a deepest entry's level is the maximum |
| FlowLayout.BuildNodeMap | src/utils/flowLayoutUtils.ts:20-26 | the `forEach` filling `nodeMap` produces `IndexNodes` of the input |
| FlowLayout.PlaceUnvisited | src/utils/flowLayoutUtils.ts:72-83 | the unvisited pass adds every input id, keeps the search's entries and order, and puts each unreached node (last occurrence of its id) on row max+1+(number of unreached nodes before it), so the maximum grows by one per unreached node |
| FlowLayout.UnvisitedRows | src/utils/flowLayoutUtils.ts:72-83 | two different unreached ids get different rows, each below every row the search filled |
| FlowLayout.CalculateFlowLayout | src/utils/flowLayoutUtils.ts:19-89 | the result has exactly the search's ids plus every input id; each entry has `y = level*200+100`; roots are on row 0; the search part is closed and parented as in `LevelBfs`; unreached ids get distinct new rows below; every row is packed in x; the map's keys begin with the search's keys in visiting order |
| FlowLayout.EmptyFlowEmptyLayout | src/utils/flowLayoutUtils.ts:19-36 | an empty input gives an empty layout |
| FlowPositions.StartX | src/utils/flowLayoutUtils.ts:107-109 | the start x of a row is at least 100 and at least (W - count*250)/2, and equals one of the two |
| FlowPositions.LevelGroup | src/utils/flowLayoutUtils.ts:96-103 | a level's group is exactly the ids at that level, in map order |
| FlowPositions.LevelGroupDistinct | src/utils/flowLayoutUtils.ts:96-103 | a group never lists an id twice |
| FlowPositions.GroupByLevel | src/utils/flowLayoutUtils.ts:96-103 | the grouping loop makes a group for exactly the levels present, with distinct levels in first-seen order, each group equal to `LevelGroup` |
| FlowPositions.PlaceLevel | src/utils/flowLayoutUtils.ts:111-113 | the inner loop sets the i-th node of a row to `startX + i*250` and changes nothing outside the row and nothing but x |
| FlowPositions.PlaceRow | src/utils/flowLayoutUtils.ts:106-114 | one level's row is packed from its start x; rows packed earlier stay packed |
| FlowPositions.CalculateXPositions | src/utils/flowLayoutUtils.ts:94-115 | in place on the map: only x changes, and every node of every level stands at `startX + index*250` for its index within the level |
| FlowPositions.XPositionsAtLeast100 | src/utils/flowLayoutUtils.ts:109-112 | after packing every x is at least 100 |
| FlowPositions.XPositionsSeparated | src/utils/flowLayoutUtils.ts:111-113 | two nodes of one level stand at least 250 apart, so x positions within a level are distinct |
| FlowPositions.ArgMin | src/utils/flowLayoutUtils.ts:126-128 | `Math.min(...s)`: an element no larger than every element |
| FlowPositions.ArgMax | src/utils/flowLayoutUtils.ts:127-129 | `Math.max(...s)`: an element no smaller than every element |
| FlowPositions.ViewportFit | src/utils/flowLayoutUtils.ts:120-139 | an empty map gives (0, 0) at zoom 1; any other gives zoom 0.8 |
| FlowPositions.ViewportCentredX | src/utils/flowLayoutUtils.ts:125-131 | the viewport x lies halfway between a leftmost and a rightmost node |
| FlowPositions.ViewportCentredY | src/utils/flowLayoutUtils.ts:125-132 | the viewport y lies halfway between a topmost and a bottommost node |
| FlowCycles.SelfLoopIsCycle | src/utils/flowLayoutUtils.ts:141-143 | a self-referencing edge is a cycle |
| FlowCycles.BackEdgeCycle | src/utils/flowLayoutUtils.ts:149 | an edge into an id on the recursion stack closes a directed cycle |
| FlowCycles.NoCycleWhenAllFinished | src/utils/flowLayoutUtils.ts:164-178 | when every node has finished with every successor finishing earlier, there is no cycle |
| FlowCycles.CycleSearch.constructor | src/utils/flowLayoutUtils.ts:145-146 | the search starts with empty `visited` and recursion stack |
| FlowCycles.CycleSearch.HasCycleDfs | src/utils/flowLayoutUtils.ts:148-166 | `hasCycleDFS` never decreases `visited`; true only when a cycle exists; on false the id and all it reaches have finished and the stack is as before |
| FlowCycles.CycleSearch.Push | src/utils/flowLayoutUtils.ts:152-153 | a new id is added to `visited` and to the recursion stack |
| FlowCycles.CycleSearch.Finish | src/utils/flowLayoutUtils.ts:164 | the top id leaves the recursion stack and finishes |
| FlowCycles.DetectCycles | src/utils/flowLayoutUtils.ts:144-179 | true exactly when the `outgoing_edges` graph (last node per id) has a directed cycle, self-loops included |
| FlowData.SortedSteps | src/utils/flowDataTransformer.ts:40 | the copy is sorted by `order` and is a permutation of `flow_nodes` of the same length |
| FlowData.Parameters | src/utils/flowDataTransformer.ts:46-50 | one parameter per `parameter_values` entry, key and value kept, `required` false |
| FlowData.CanvasNodes | src/utils/flowDataTransformer.ts:42-73 | one canvas node per flow node |
| FlowData.CanvasNodePlaced | src/utils/flowDataTransformer.ts:43-70 | the k-th node (in `order`) has id `${flow.id}-${node.id}`, x = k*350, y = flowIndex*200, its parameters, and the flow's deployed flag |
| FlowData.CanvasEdges | src/utils/flowDataTransformer.ts:76-90 | a flow with k nodes gives max(k-1, 0) edges |
| FlowData.EdgesLinkNeighbours | src/utils/flowDataTransformer.ts:76-89 | edge k goes from node k to node k+1 in ascending `order`, has id `${source}-${target}`, and is animated exactly when the flow is active |
| FlowData.TransformFlowData | src/utils/flowDataTransformer.ts:34-95 | the nested loops push exactly the nodes and edges of every flow, flow after flow |
| FlowData.PushFlow | src/utils/flowDataTransformer.ts:42-91 | the inner loop appends one flow's nodes and edges |
| FlowData.TransformCounts | src/utils/flowDataTransformer.ts:38-90 | nodes = sum of `flow_nodes` lengths; edges = that sum minus the number of non-empty flows |
| FlowData.GetFlowStats | src/utils/flowDataTransformer.ts:97-109 | `totalFlows` is the flow count, and the active and deployed counts are at most that |
| FlowData.StatsMatchTransform | src/utils/flowDataTransformer.ts:101 | `totalNodes` equals the number of canvas nodes the transform produces |
| FlowData.StatsCountFlags | src/utils/flowDataTransformer.ts:99-100 | the active and deployed counts count exactly the active and the deployed flows |
| Unique.FirstIndex | src/pages/flows/flow-detail/FlowDetailPage.tsx:45-50 | the first position carrying a key |
| Unique.Dedup | src/pages/flows/flow-detail/FlowDetailPage.tsx:45-50 | the de-duplicated list has exactly the keys of the input |
| Unique.DedupSnoc | src/pages/flows/flow-detail/FlowDetailPage.tsx:47-49 | one more element is kept exactly when its key is new |
| Unique.DedupFirst | src/pages/flows/flow-detail/FlowDetailPage.tsx:45-50 | the result holds, for each key, the first input element with that key, in first-occurrence order |
| Unique.DedupDistinct | src/pages/flows/flow-detail/FlowDetailPage.tsx:45-50 | no key occurs twice in the result |
| Unique.DedupDistinctUnchanged | src/pages/flows/flow-detail/FlowDetailPage.tsx:45-50 | a list with distinct keys is left as it is |
| Unique.DedupIdempotent | src/pages/flows/flow-detail/FlowDetailPage.tsx:45-50 | de-duplicating twice equals de-duplicating once |
| Unique.DedupExtend | src/pages/flows/flow-detail/FlowDetailPage.tsx:46-50 | the `has`/`set` loop over more elements extends the de-duplication of the prefix |
| Unique.DedupWalk | src/pages/flows/flow-detail/FlowDetailPage.tsx:45-50 | the whole walk from an empty map yields `Dedup` |
| FlowDetail.EdgeRefs | src/pages/flows/flow-detail/FlowDetailPage.tsx:55-56 | a missing edge list becomes `[]`; a present one keeps its length |
| FlowDetail.LayoutInput | src/pages/flows/flow-detail/FlowDetailPage.tsx:53-57 | one layout input per unique node, with its id and both edge lists present |
| FlowDetail.LayoutInputRoots | src/pages/flows/flow-detail/FlowDetailPage.tsx:55 | a layout input is a root exactly when its flow node lists no incoming edge |
| FlowDetail.Parameters | src/pages/flows/flow-detail/FlowDetailPage.tsx:78 | the selected subnode's parameter list, or `[]` when there is no selected subnode or no parameter list |
| FlowDetail.DetailNodes | src/pages/flows/flow-detail/FlowDetailPage.tsx:63-82 | one canvas node per unique flow node, in order, with the node's id, its name as label, `Version: N` as description and the selected subnode's parameters |
| FlowDetail.DetailNodePosition | src/pages/flows/flow-detail/FlowDetailPage.tsx:64-72 | position is the layout x/y, but a missing entry, a zero x or a zero y becomes 100 (JavaScript `or` fallback) |
| FlowDetail.EdgeLabel | src/pages/flows/flow-detail/FlowDetailPage.tsx:94 | a label exactly when the condition is present and non-empty, and then it is the condition |
| FlowDetail.EdgeOf | src/pages/flows/flow-detail/FlowDetailPage.tsx:89-96 | edge id kept, `source = from_node`, `target = to_node` |
| FlowDetail.NodeEdges | src/pages/flows/flow-detail/FlowDetailPage.tsx:87 | no edges for a missing `outgoing_edges`, else one per edge |
| FlowDetail.CollectEdges | src/pages/flows/flow-detail/FlowDetailPage.tsx:85-101 | the nested loops keep the first edge of each id across all flow nodes |
| FlowDetail.GetStatusBadge | src/pages/flows/flow-detail/FlowDetailPage.tsx:103-111 | Running iff running; Deployed iff deployed and not running; Not Deployed otherwise |
| FlowDetail.PrepareCanvas | src/pages/flows/flow-detail/FlowDetailPage.tsx:44-101 | the layout is `calculateFlowLayout` of the unique flow nodes: every unique id has an entry, y is level times 200 plus 100, roots are on row 0, levels are the search's, unreached nodes get rows of their own, rows are packed and the search's keys come first in visiting order; one canvas node per unique id (first occurrence) with its label, version and parameters, sitting exactly at its layout coordinates, both at least 100; and the de-duplicated edges |
| FlowDetail.PackedAtLeast100 | src/pages/flows/flow-detail/FlowDetailPage.tsx:60-72 | in a packed layout every coordinate is at least 100, so the fallback to 100 never fires for laid-out nodes |
| NodeKinds.OneCategory | src/components/GenericFlowNode.tsx:30-78 | icon, colour and badge all come from the same first-matching category |
| NodeKinds.GetNodeIcon | src/components/GenericFlowNode.tsx:30-44 | The icon is the icon of the name's first-matching category |
| NodeKinds.GetNodeColor | src/components/GenericFlowNode.tsx:47-61 | The colour is the colour of the name's first-matching category |
| NodeKinds.GetNodeTypeBadge | src/components/GenericFlowNode.tsx:64-78 | The badge is the badge of the name's first-matching category |
| NodeKinds.CategoriesDistinct | src/components/GenericFlowNode.tsx:33-77 | different categories have different icons, colours and badges |
| NodeKinds.KindIgnoresCase | src/components/GenericFlowNode.tsx:31-65 | classification ignores ASCII case |
| NodeKinds.DecoderBeforeAscii | src/components/GenericFlowNode.tsx:69-70 | a name containing "decoder" never gets the ASCII category |
| NodeKinds.AsciiCategory | src/components/GenericFlowNode.tsx:67-70 | ASCII exactly when the name has "ascii" and none of the earlier words |
| NodeKinds.DefaultCategory | src/components/GenericFlowNode.tsx:43-77 | the defaults (Settings, `bg-slate-500`, "Generic Node") exactly when no rule word occurs |
| CampaignForm.StartForm | src/pages/CampaignCreate.tsx:112-117 | A non-empty preselected segment gives the initial form with that one segment and 45000 customers; otherwise the initial form unchanged |
| CampaignForm.SelectedFlags | src/pages/CampaignCreate.tsx:170-173 | Filtering the flag order sms, ussd, app, email by the flags lists exactly the true flags in that order |
| CampaignForm.SelectedFacts | src/pages/CampaignCreate.tsx:162-167 | The selected channels are exactly the true flags, each once, and their number is the count of true flags |
| CampaignForm.MergeNoChange | src/pages/CampaignCreate.tsx:139-141 | An update with no fields leaves the form unchanged |
| CampaignForm.Merge | src/pages/CampaignCreate.tsx:139-141 | An empty update leaves the form as it is; a channels, settings, messages or email field in the update replaces the whole nested record, and an absent one keeps the old record |
| CampaignForm.MergeCombine | src/pages/CampaignCreate.tsx:139-141 | Two updates in a row equal one combined update in which the later field wins |
| CampaignForm.MergeIdempotent | src/pages/CampaignCreate.tsx:139-141 | Applying the same update twice equals applying it once |
| CampaignForm.MergeOneField | src/pages/CampaignCreate.tsx:139-141 | An update naming only the name field changes the name and no other field |
| CampaignCreate.Steps | src/pages/CampaignCreate.tsx:119-135 | An incentive campaign has six pages, any other campaign five |
| CampaignCreate.MaxStep | src/pages/CampaignCreate.tsx:137 | The last step is the number of pages: 6 exactly for an incentive campaign, 5 exactly otherwise |
| CampaignCreate.ActualStep | src/pages/CampaignCreate.tsx:144 | Incentive steps are kept; a non-incentive step from 4 on is shifted up by one, earlier steps are kept |
| CampaignCreate.ActualStepShowsSamePage | src/pages/CampaignCreate.tsx:119-144 | For every step within the wizard the renumbered step is in 1 to 6 and names the same page in the incentive list, so each page runs its own check |
| CampaignCreate.SelectedPriorities | src/pages/CampaignCreate.tsx:169-173 | One priority per selected channel |
| CampaignCreate.CheckChannels | src/pages/CampaignCreate.tsx:161-181 | The channel page passes iff at least one channel is on and, when more than one is on, every selected channel has a positive priority; a single channel always passes |
| CampaignCreate.ValidateStep | src/pages/CampaignCreate.tsx:143-213 | Per renumbered step, the exact pass condition: required basics, a segment or file, the channel check, the reward value, account and balance for incentives, both dates for a scheduled campaign; any other step passes |
| CampaignCreate.PlainCampaignSteps | src/pages/CampaignCreate.tsx:144-208 | A non-incentive campaign checks the schedule at step 4, passes step 5 unconditionally and never reaches the reward check |
| CampaignCreate.ReviewAlwaysPasses | src/pages/CampaignCreate.tsx:137-211 | The last step of either kind of campaign always passes |
| CampaignCreate.NextStep | src/pages/CampaignCreate.tsx:215-217 | The step advances by exactly one iff the check passed and the step is below the last; it never passes the last step from within range |
| CampaignCreate.BackStep | src/pages/CampaignCreate.tsx:219 | The step goes back by exactly one iff it is above 1, and never below 1 |
| CampaignCreate.BackUndoesNext | src/pages/CampaignCreate.tsx:215-219 | Back after a Next that moved returns to the starting step |
| CampaignCreate.Wizard.constructor | src/pages/CampaignCreate.tsx:111-117 | The wizard opens on step 1 with the start form |
| CampaignCreate.Wizard.HandleNext | src/pages/CampaignCreate.tsx:215-217 | Runs the check of the current step, leaves the form, and moves the step as NextStep says |
| CampaignCreate.Wizard.HandleBack | src/pages/CampaignCreate.tsx:219 | Moves the step as BackStep says and leaves the form |
| CampaignCreate.Wizard.UpdateFormData | src/pages/CampaignCreate.tsx:139-141 | Replaces the form by the merge of the update into it and keeps the step |
| CampaignCreate.StepsStayInRange | src/pages/CampaignCreate.tsx:215-219 | From any step within the wizard, Next and Back stay within 1 and the last step |
| CampaignMapper.Names | src/utils/campaignMapper.ts:6-13 | One name per channel |
| CampaignMapper.NamesAppend | src/utils/campaignMapper.ts:6-13 | Naming distributes over concatenation |
| CampaignMapper.NamesOfFlags | src/utils/campaignMapper.ts:6-13 | The names of the selected channels are the names of the true flags, in the order sms, ussd, app, email |
| CampaignMapper.GetEnabledChannels | src/utils/campaignMapper.ts:6-13 | The pushed list equals the names of the selected channels |
| CampaignMapper.NamesDiffer | src/utils/campaignMapper.ts:8-11 | Different channels have different names |
| CampaignMapper.NameListed | src/utils/campaignMapper.ts:6-13 | A channel's name is in the name list iff the channel is in the channel list |
| CampaignMapper.EnabledChannelsExact | src/utils/campaignMapper.ts:6-13 | The enabled list names a channel iff its flag is true, names each once, and has as many entries as true flags |
| CampaignMapper.EnabledChannelsRoundTrip | src/utils/campaignMapper.ts:6-13 | The flags can be read back from the enabled list unchanged |
| CampaignMapper.RewardType | src/utils/campaignMapper.ts:70 | The reward type is the free-text one exactly when the chosen type is "other" |
| CampaignMapper.BuildCampaignPayload | src/utils/campaignMapper.ts:15-88 | The request carries the form's basics, segment ids, customer total and schedule verbatim, the channel messages and the email body and subject, the given status, no uploaded file, the fixed sender, enabled channels that read back as the form's flags, each channel's settings, the resolved reward type, the reward value and account, the per-customer cap, and the per-day cap as the campaign cap |
| CampaignMapper.PayloadKeepsFormFields | src/utils/campaignMapper.ts:18-87 | Two forms with the same request agree on every field the request copies: basics, audience, channels, settings, messages, email text, reward value and account, schedule |
| CampaignDetail.GetVisibleTabs | src/pages/CampaignDetail.tsx:71-78 | Running, Paused and Completed show overview, the four extended tabs, then logs; every other status shows overview and logs |
| CampaignDetail.VisibleTabsShape | src/pages/CampaignDetail.tsx:71-78 | Every status shows overview first and logs last, and a middle tab is shown iff the campaign has started and the tab is an extended one |
| CampaignDetail.StatusOf | src/pages/CampaignDetail.tsx:106 | A missing header status reads as Draft, a present one as itself |
| CampaignDetail.ResetTab | src/pages/CampaignDetail.tsx:109-111 | The tab after the effect is visible, and equals the previous tab iff that tab was visible |
| CampaignDetail.ResetTabStable | src/pages/CampaignDetail.tsx:109-111 | Running the effect twice is running it once |
| CampaignDetail.DetailTabs.constructor | src/pages/CampaignDetail.tsx:99-107 | The page opens on the overview with the status read from the header |
| CampaignDetail.DetailTabs.Reload | src/pages/CampaignDetail.tsx:103-111 | New data sets the status and the effect resets the tab if the new status hides it |
| CampaignDetail.DetailTabs.SelectTab | src/pages/CampaignDetail.tsx:99-111 | A picked tab is kept iff the status shows it, else the overview; the status is unchanged |
| CampaignDetail.ActionsFor | src/pages/CampaignDetail.tsx:143-270 | The buttons of each status, left to right; none for any other status |
| CampaignDetail.ActionsByStatus | src/pages/CampaignDetail.tsx:143-270 | Delete and submit are offered iff Draft, cancel iff Pending_Approval or Scheduled, pause iff Running, resume iff Paused; Completed and Failed offer nothing |
| CampaignDetail.MissingHeaderActions | src/pages/CampaignDetail.tsx:106-107 | A page whose header has not loaded offers the draft's buttons and the two base tabs |
| CampaignDetail.HandleSubmitForApproval | src/pages/CampaignDetail.tsx:121-132 | It fails with the fixed message iff there is no payload, and otherwise submits the payload |
| CampaignDetail.SubmitAlwaysFails | src/pages/CampaignDetail.tsx:121-132 | With the payload the page holds, submitting always fails and nothing is sent |
| CampaignDetail.StatusLabel | src/pages/CampaignDetail.tsx:311 | The label has the status's length and is the status itself when it has no underscore |
| CampaignDetail.StatusLabelFirstOnly | src/pages/CampaignDetail.tsx:311 | Only the first underscore becomes a space; every other character is kept |
| BigIds.SkipSpaces | src/services/campaignApi.ts:235 | A white-space run from the index stops at the first non-space or the end |
| BigIds.SkipDigits | src/services/campaignApi.ts:235 | A greedy digit run from the index stops at the first non-digit or the end |
| BigIds.MatchAt | src/services/campaignApi.ts:235 | A match at an index starts with the quoted key and has a digit run of at least fifteen digits after it |
| BigIds.MatchAtSound | src/services/campaignApi.ts:235 | Whatever the scanner finds is a match of the pattern (key, spaces, colon, spaces, digits) with the longest digit run |
| BigIds.MatchAtComplete | src/services/campaignApi.ts:235 | Wherever the pattern matches, the scanner finds a match with the same digit start and a run at least as long |
| BigIds.ShortRunNoMatch | src/services/campaignApi.ts:235 | A key and colon followed by a whole run of fewer than fifteen digits is not rewritten |
| BigIds.SanitizeFrom | src/services/campaignApi.ts:235 | The rewrite of a non-empty rest starts with the same character as that rest |
| BigIds.Sanitize | src/services/campaignApi.ts:235 | The rewrite of the whole text keeps its first character, and text in which the pattern matches nowhere comes back unchanged |
| BigIds.NoMatchUnchanged | src/services/campaignApi.ts:235 | Text in which the pattern matches nowhere is left as it is |
| BigIds.CopyNoMatch | src/services/campaignApi.ts:235 | A stretch where no match starts is copied unchanged ahead of the rewrite of the rest |
| BigIds.CopyPlain | src/services/campaignApi.ts:235 | A stretch without quotes is copied unchanged |
| BigIds.NoDigitBeforeI | src/services/campaignApi.ts:235 | In text where no digit is directly followed by the letter i, as in JSON, no match is followed by id and a quote |
| BigIds.SanitizeIdempotent | src/services/campaignApi.ts:235 | Rewriting a second time changes nothing, for text where no match is directly followed by id and a quote |
| Http.HandleJson | src/services/campaignApi.ts:225-228 | The result is the body iff the response is ok; otherwise the error text is the prefix, a colon, the status and the status text |
| Http.FailureNamesStatus | src/services/campaignApi.ts:225-228 | Two failed responses give the same error under one prefix iff their status and status text are equal |
| Http.StatusLineSplits | src/services/campaignApi.ts:226 | A status line splits back into the status number and its text |
| Http.FirstSpace | src/services/campaignApi.ts:226 | The first space of a status line follows the status digits |
| CampaignApi.Get | src/services/campaignApi.ts:240 | Reading a missing field gives undefined, a present one its value |
| CampaignApi.ToStr | src/services/campaignApi.ts:240 | String of a string is itself; String of an integer is its decimal text |
| CampaignApi.TruthyPrintsTruthy | src/services/campaignApi.ts:240 | A true value prints as a non-empty, hence true, string |
| CampaignApi.NormalizeCampaign | src/services/campaignApi.ts:240 | The result has the old keys plus id and campaignId, every other field unchanged, a string id and a string or undefined campaignId |
| CampaignApi.NormalizePrefersCampaignId | src/services/campaignApi.ts:240 | A true campaignId becomes the id and stays as a string; otherwise the id is the old id printed and campaignId becomes undefined; campaignId is true afterwards iff it was before |
| CampaignApi.StringIdKept | src/services/campaignApi.ts:240 | A string id without a true campaignId is kept as it is |
| CampaignApi.NormalizeCampaignIdempotent | src/services/campaignApi.ts:240 | Normalising a normalised campaign changes nothing |
| CampaignApi.NormalizePayload | src/services/campaignApi.ts:239-242 | Data that is not an object with a campaigns array is returned untouched; otherwise the other fields stay and each campaign is mapped in place, the array keeping its length |
| CampaignApi.NormalizePayloadIdempotent | src/services/campaignApi.ts:239-242 | With an idempotent campaign rule, normalising twice is normalising once |
| CampaignApi.FetchCampaigns | src/services/campaignApi.ts:231-243 | The result is the parse of the rewritten body text: a parse error as it is, parsed data normalised |
| CampaignApi.FetchedCampaignsNormal | src/services/campaignApi.ts:231-243 | Every fetched campaign has a string id and a string or missing campaignId, and the fetched data is a fixpoint of the normalisation |
| CampaignApi.FetchIgnoresStatus | src/services/campaignApi.ts:231-243 | The list is read from the body whatever the status: a failed and an ok response with the same body give the same result, where a checked call fails on the failed one |
| CampaignApi.PrefixIdentifiesCall | src/services/campaignApi.ts:245-315 | The error prefix of each call reads back as that call |
| CampaignApi.CheckCall | src/services/campaignApi.ts:245-315 | Each checked call gives the body iff the response is ok, and otherwise the error naming the call's prefix, the status and the status text |
| CampaignApi.FailureIdentifiesCall | src/services/campaignApi.ts:225-315 | Two failed calls give the same error iff they are the same call with the same status and status text |
| CampaignApi.FailureIdentifiesPrefix | src/services/campaignApi.ts:225-228 | For colon-free prefixes, two failures give the same error iff prefix, status and status text agree |
| CampaignApi.NoColonInPrefix | src/services/campaignApi.ts:251-314 | No call prefix contains a colon |
| CampaignApi.PrefixInjective | src/services/campaignApi.ts:251-314 | Different calls have different prefixes |
| CampaignApi.SamePrefix | src/services/campaignApi.ts:226 | Two error texts that are equal have equal colon-free prefixes |
| CampaignApi.FirstColon | src/services/campaignApi.ts:226 | The first colon of an error text ends its colon-free prefix |
| DashboardApi.PeriodReadsBack | src/services/dashboardApi.ts:4 | Each period reads back from its text, so no two periods share one |
| DashboardApi.ParsePeriod | src/services/dashboardApi.ts:4 | A text is read as a period iff it is one of the four period texts, and the period read prints back as that text |
| DashboardApi.EffectivePeriod | src/services/dashboardApi.ts:154-166 | A given period is used as it is, a missing one is 7d |
| DashboardApi.Query | src/services/dashboardApi.ts:154-171 | The three period calls send period= and the text of the effective period, 7d by default; the churn call sends no query |
| DashboardApi.CheckCall | src/services/dashboardApi.ts:147-172 | Each checked call gives the body iff the response is ok, and otherwise the error naming the call's prefix, the status and the status text |
| DashboardApi.FailureIdentifiesCall | src/services/dashboardApi.ts:147-172 | Two failed calls give the same error iff they are the same call with the same status and status text |
| DashboardApi.NoColonInPrefix | src/services/dashboardApi.ts:156-171 | No call prefix contains a colon |
| DashboardApi.PrefixInjective | src/services/dashboardApi.ts:156-171 | Different calls have different prefixes |
| DashboardApi.StringId | src/services/dashboardApi.ts:181 | The result has the old keys plus id, every other field unchanged, and a string id |
| DashboardApi.StringIdIdempotent | src/services/dashboardApi.ts:181 | The id is the old id printed, and printing it again changes nothing |
| DashboardApi.AgreesWithCampaignService | src/services/dashboardApi.ts:181 | Without a true campaignId the campaign service's normalisation is this one plus an undefined campaignId; with one, the campaign service takes the campaignId as the id |
| DashboardApi.FetchCampaignList | src/services/dashboardApi.ts:174-195 | The result is the parse of the rewritten body text: a parse error as it is, parsed data with every campaign's id made a string |
| DashboardApi.FetchedIdsAreStrings | src/services/dashboardApi.ts:174-195 | Every fetched campaign has a string id and the fetched data is a fixpoint of the normalisation |
| DashboardApi.ListIgnoresStatus | src/services/dashboardApi.ts:174-195 | The lists are read whatever the status, where a checked call fails on a failed response |
| ReportApi.FetchReportsParams | src/services/reportApi.ts:82-95 | The query holds page (default 1) and page_size (default 10), search iff given, source_type and export_format iff given and not all, each with its value, in that fixed order |
| ReportApi.ReportsQuery | src/services/reportApi.ts:89-95 | The query starts with page (default 1) then page_size (default 10) and holds at most three further parameters |
| ReportApi.CheckResponse | src/services/reportApi.ts:98-135 | Each call gives the body iff the response is ok, and otherwise its own fixed message |
| ReportApi.FailureIdentifiesCall | src/services/reportApi.ts:98-135 | Two failed calls give the same error iff they are the same call; the error carries nothing of the response |
| TopBar.GetNavClasses | src/components/layout/top-bar.tsx:26-36 | A link gets the active classes iff it is active, and the inactive classes iff it is not |
| TopBar.IsActive | src/components/layout/top-bar.tsx:26-32 | The root link is active only on "/"; any other link iff the location starts with its path, so never on a shorter location |
| TopBar.RootOnlyExact | src/components/layout/top-bar.tsx:26-29 | The dashboard link is active on the root path and on no other |
| TopBar.ActiveBelow | src/components/layout/top-bar.tsx:30 | Any other link is active on its own path and on every path that extends it |
| TopBar.PrefixWithoutSegmentBoundary | src/components/layout/top-bar.tsx:30 | The test is a plain string prefix: a sibling path that extends the text is active too, a shorter one is not |
| TopBar.ShorterNeverActive | src/components/layout/top-bar.tsx:30 | A location shorter than a link's path never activates it |
| TopBar.PrefixesNest | src/components/layout/top-bar.tsx:30 | Of two paths that both start a location, the shorter starts the longer |
| TopBar.MenuPathsDiffer | src/components/layout/top-bar.tsx:13-19 | No menu path after the root starts another one |
| TopBar.AtMostOneActive | src/components/layout/top-bar.tsx:13-36 | On any location at most one menu link is active |
| TopBar.ToggleTheme | src/components/layout/top-bar.tsx:69 | The result is light iff the theme was dark, and it is always light or dark |
| TopBar.ToggleTwice | src/components/layout/top-bar.tsx:69 | Two presses return to light or dark; from any other theme they end on light |
| TaskManager.Flip | src/pages/TaskManager.tsx:50 | The status always changes |
| TaskManager.Toggled | src/pages/TaskManager.tsx:47-53 | Same length; tasks with the id have their status flipped and nothing else changed; other tasks are kept |
| TaskManager.ToggleTwice | src/pages/TaskManager.tsx:47-53 | Toggling the same id twice restores the list |
| TaskManager.ToggleUnknown | src/pages/TaskManager.tsx:47-53 | Toggling an id no task has changes nothing |
| TaskManager.CountsAddUp | src/pages/TaskManager.tsx:55-56 | The new and completed counts add up to the number of tasks |
| TaskManager.NewCount | src/pages/TaskManager.tsx:55 | At most the number of tasks, and zero iff no task is new |
| TaskManager.CompletedCount | src/pages/TaskManager.tsx:56 | At most the number of tasks, and zero iff no task is completed |
| TaskManager.ToggleMovesOne | src/pages/TaskManager.tsx:47-56 | Toggling a task with a unique id moves it from one count to the other |
| TaskManager.AddCountsNew | src/pages/TaskManager.tsx:37-41 | An added task raises the new count by one and leaves the completed count |
| TaskManager.TaskPage.constructor | src/pages/TaskManager.tsx:24-27 | The page opens with no tasks and an empty form |
| TaskManager.TaskPage.HandleAddTask | src/pages/TaskManager.tsx:29-45 | A task is added iff the trimmed name is non-empty and a date is set; it goes first with trimmed texts, status new and the given id and time, and the form is cleared; otherwise nothing changes |
| TaskManager.TaskPage.ToggleTaskStatus | src/pages/TaskManager.tsx:47-53 | The list becomes the toggled list and the form is unchanged |
| NccFlows.NccFlows | src/pages/mediations/NCCFlowsPage.tsx:37-45 | The NCC flows are no more than the items |
| NccFlows.FilteredFlows | src/pages/mediations/NCCFlowsPage.tsx:47-49 | The filtered flows are no more than the flows |
| NccFlows.FilteredFlowsExact | src/pages/mediations/NCCFlowsPage.tsx:37-49 | The page's list holds exactly the items whose lower-cased name contains ncc and the lower-cased search term, in the items' order |
| NccFlows.EmptySearchKeepsAll | src/pages/mediations/NCCFlowsPage.tsx:47-49 | An empty search keeps every flow |
| NccFlows.TotalPages | src/pages/mediations/NCCFlowsPage.tsx:51 | The page count is the least number of pages of the given size that hold every flow |
| NccFlows.Slice | src/pages/mediations/NCCFlowsPage.tsx:53 | A slice from past the end is empty; otherwise it is the run from the start to the end clamped to the length |
| NccFlows.PageOf | src/pages/mediations/NCCFlowsPage.tsx:52-53 | A page holds at most the page size |
| NccFlows.PageContents | src/pages/mediations/NCCFlowsPage.tsx:51-53 | An existing page is the run of flows from its first index, as many as fit; a page is empty iff it is past the last page |
| NccFlows.PagesPartition | src/pages/mediations/NCCFlowsPage.tsx:51-53 | The pages read one after the other give back the filtered list: every flow is on exactly one page |
| NccFlows.RangeLabelCountsPage | src/pages/mediations/NCCFlowsPage.tsx:248 | On an existing page the label starts at the page's first flow, counting from 1, spans as many flows as the page shows and ends within the list |
| NccFlows.RangeLabel | src/pages/mediations/NCCFlowsPage.tsx:248 | The label starts one past the page's first index and ends at the page end or the list end, whichever comes first |
| NccFlows.PageLinks | src/pages/mediations/NCCFlowsPage.tsx:262 | One link per page, numbered 1 to the page count |
| NccFlows.PreviousPage | src/pages/mediations/NCCFlowsPage.tsx:255-258 | Back one page unless on the first |
| NccFlows.NextPage | src/pages/mediations/NCCFlowsPage.tsx:279-283 | On one page unless on the last |
| NccFlows.PageMovesStayInRange | src/pages/mediations/NCCFlowsPage.tsx:255-283 | Previous and Next stay within the existing pages, and Previous undoes a Next that moved |
| NccFlows.GetFlowStatus | src/pages/mediations/NCCFlowsPage.tsx:55-59 | running iff the flow runs; deployed iff it does not run and is deployed; draft iff neither |
| NccFlows.NccFlowsPage.Paginated | src/pages/mediations/NCCFlowsPage.tsx:52-53 | The shown flows are at most the page size |
| NccFlows.NccFlowsPage.constructor | src/pages/mediations/NCCFlowsPage.tsx:29-45 | The page mounts on page 1 of size 10 with an empty search and the NCC flows of the items, or none |
| NccFlows.NccFlowsPage.ItemsChanged | src/pages/mediations/NCCFlowsPage.tsx:37-45 | New items replace the flows by their NCC flows, absent items leave them; nothing else changes |
| NccFlows.NccFlowsPage.SetPageSize | src/pages/mediations/NCCFlowsPage.tsx:95-111 | A chosen size is set and the page goes back to 1 |
| NccFlows.NccFlowsPage.SetSearchTerm | src/pages/mediations/NCCFlowsPage.tsx:112-120 | The search is set and the page goes back to 1 |
| NccFlows.NccFlowsPage.Previous | src/pages/mediations/NCCFlowsPage.tsx:255-258 | The page moves as PreviousPage says; nothing else changes |
| NccFlows.NccFlowsPage.Next | src/pages/mediations/NCCFlowsPage.tsx:279-283 | The page moves as NextPage says for the current page count; nothing else changes |
| NccFlows.NccFlowsPage.GoToPage | src/pages/mediations/NCCFlowsPage.tsx:262-270 | A page link sets the page to its number, which is an existing page |
| RewardAccounts.ParseBalance | src/pages/RewardAccountManagement.tsx:48-51 | The balance read as a finite number, or 0 when it does not read as one |
| RewardAccounts.UnreadableIsLow | src/pages/RewardAccountManagement.tsx:46-51 | An account whose balance cannot be read is shown as low |
| RewardAccounts.IsLow | src/pages/RewardAccountManagement.tsx:316 | An unreadable balance is flagged low; a readable one is flagged iff it is below 100000 |
| RewardAccounts.FilteredAccounts | src/pages/RewardAccountManagement.tsx:81-100 | The filtered accounts are no more than the accounts |
| RewardAccounts.FilteredAccountsExact | src/pages/RewardAccountManagement.tsx:81-100 | The list keeps, in order, exactly the accounts that match the search in name or id, the status, the assignment and the minimum balance |
| RewardAccounts.MinBalanceRule | src/pages/RewardAccountManagement.tsx:94-96 | An empty or unreadable minimum lets every account through; a readable one keeps the accounts whose read balance is at least it |
| RewardAccounts.NoFiltersKeepAll | src/pages/RewardAccountManagement.tsx:59-62 | The filters the page opens with keep every account |
| RewardAccounts.AssignedSplit | src/pages/RewardAccountManagement.tsx:89-92 | For a count that is not negative, an account is assigned iff it is not unassigned |
| RewardAccounts.CampaignNames | src/pages/RewardAccountManagement.tsx:181 | One name per assigned campaign |
| RewardAccounts.CsvRow | src/pages/RewardAccountManagement.tsx:174-183 | A row has one field per header column |
| RewardAccounts.CsvRows | src/pages/RewardAccountManagement.tsx:172-184 | The header, then one row per filtered account in order |
| RewardAccounts.CsvHeaderFirst | src/pages/RewardAccountManagement.tsx:171-186 | `CsvContent`, the exported text, starts with the header line joined by commas, and is only that line when no account is listed |
| RewardAccounts.JoinRows | src/pages/RewardAccountManagement.tsx:185 | One line per row |
| RewardAccounts.CsvReadsBack | src/pages/RewardAccountManagement.tsx:171-186 | When no field holds a comma or a line break, splitting the file on line breaks and commas gives back the header and the rows |
| RewardAccounts.CommaInNameShiftsColumns | src/pages/RewardAccountManagement.tsx:171-186 | Without quoting, a comma in an account name adds a column to that row |
| RewardAccounts.AccountForm.constructor | src/pages/RewardAccountManagement.tsx:68-75 | The form opens reset with no selected account |
| RewardAccounts.AccountForm.ResetForm | src/pages/RewardAccountManagement.tsx:102-108 | The fields return to their defaults and the selection is kept |
| RewardAccounts.AccountForm.OpenEditModal | src/pages/RewardAccountManagement.tsx:115-123 | The account is selected and the form holds its fields, the balance as the printed read balance |
| RewardAccounts.AccountForm.HandleCreate | src/pages/RewardAccountManagement.tsx:130-144 | A request is made iff id and name are non-empty and the balance reads; it carries the form, and the form is reset; otherwise nothing changes |
| RewardAccounts.AccountForm.HandleEdit | src/pages/RewardAccountManagement.tsx:146-162 | A request is made iff an account is selected; it is addressed to the selected account's id (the id the update hook is given at line 77) and carries the form, with no balance when unreadable; the selection and form are cleared; otherwise nothing changes |
| RewardAccounts.AccountForm.HandleDelete | src/pages/RewardAccountManagement.tsx:164-169 | The selected account's database id is deleted, if any, and the selection is cleared; the form is kept |
| UnifiedAlerts.Tag | src/pages/UnifiedAlertsPage.tsx:30-33 | Each alert keeps its fields and gains the type and its origin as source |
| UnifiedAlerts.AllAlertsNewestFirst | src/pages/UnifiedAlertsPage.tsx:30-33 | The merged list holds every tagged alert of both lists once, ordered newest first |
| UnifiedAlerts.AllAlerts | src/pages/UnifiedAlertsPage.tsx:30-33 | The merged list is as long as both lists together and holds exactly the tagged flow and node alerts |
| UnifiedAlerts.AllAlertsStable | src/pages/UnifiedAlertsPage.tsx:30-33 | Alerts with the same time keep their order: flow alerts before node alerts, each in its own order |
| UnifiedAlerts.GetFilteredAlerts | src/pages/UnifiedAlertsPage.tsx:35-51 | The tab's list is no longer than its source list |
| UnifiedAlerts.FilteredAlertsExact | src/pages/UnifiedAlertsPage.tsx:35-51 | The tab's list keeps, in order, exactly the alerts of its source list that match the search in title or source and the severity and status filters |
| UnifiedAlerts.TabShowsItsType | src/pages/UnifiedAlertsPage.tsx:36-37 | On the flow or node tab every alert shown has that type and comes from that list with its origin as source |
| UnifiedAlerts.AllTabNewestFirst | src/pages/UnifiedAlertsPage.tsx:38-50 | The all-alerts tab is newest first whatever the filters |
| UnifiedAlerts.SeverityVariantCases | src/pages/UnifiedAlertsPage.tsx:59-62 | destructive iff high, secondary iff medium, outline otherwise |
| UnifiedAlerts.SeverityLabel | src/pages/UnifiedAlertsPage.tsx:66 | The label has the severity's length and no lower-case letter |
| UnifiedAlerts.SeverityLabelReadsBack | src/pages/UnifiedAlertsPage.tsx:66 | Lower-casing the label of a lower-case severity gives it back |
| UnifiedAlerts.StatusLabel | src/pages/UnifiedAlertsPage.tsx:80 | The label has the status's length |
| UnifiedAlerts.StatusLabelReadsBack | src/pages/UnifiedAlertsPage.tsx:80 | Lower-casing the label of a lower-case status gives it back |
| UnifiedAlerts.StatusColorKnown | src/pages/UnifiedAlertsPage.tsx:71-79 | A status is coloured iff it is active, acknowledged or resolved |
| UnifiedAlerts.TaggedType | src/pages/UnifiedAlertsPage.tsx:31-32 | Every tagged alert carries the given type |
| UnifiedAlerts.TypeLabelOfTagged | src/pages/UnifiedAlertsPage.tsx:85-90 | Every merged alert is a flow or node alert, and its badge reads Flow iff it is a flow alert |
| UnifiedAlerts.CountsAddUp | src/pages/UnifiedAlertsPage.tsx:171-205 | Each summary count over the sorted list is the flow alerts' count plus the node alerts' |
| UnifiedAlerts.CountsBounded | src/pages/UnifiedAlertsPage.tsx:171-205 | No summary count exceeds the number of alerts |
| UnifiedAlerts.FlowAlertCounts | src/pages/UnifiedAlertsPage.tsx:11-15 | The flow alerts hold one high, one medium, one active and one resolved alert |
| UnifiedAlerts.NodeAlertCounts | src/pages/UnifiedAlertsPage.tsx:17-21 | The node alerts hold one high, one medium, two active and no resolved alert |
| UnifiedAlerts.PageSummary | src/pages/UnifiedAlertsPage.tsx:171-205 | The cards read 2 high, 2 medium, 3 active and 1 resolved |
| UnifiedReports.Tag | src/pages/UnifiedReportsPage.tsx:32 | Each report keeps its fields and gains the category |
| UnifiedReports.GetFilteredReports | src/pages/UnifiedReportsPage.tsx:34-47 | The tab's list is no longer than its source list |
| UnifiedReports.FilteredReportsExact | src/pages/UnifiedReportsPage.tsx:34-47 | The tab's list keeps, in order, exactly the reports of its source list that match the search in name or type and the type and status filters |
| UnifiedReports.AllTabIsNodeThenFlow | src/pages/UnifiedReportsPage.tsx:32-37 | The all-reports tab shows the node tab's list followed by the flow tab's |
| UnifiedReports.TabShowsItsCategory | src/pages/UnifiedReportsPage.tsx:35-36 | Every report on the node or flow tab carries that category |
| UnifiedReports.StatusLabel | src/pages/UnifiedReportsPage.tsx:68 | The label has the status's length |
| UnifiedReports.StatusLabelReadsBack | src/pages/UnifiedReportsPage.tsx:68-124 | Lower-casing the label of a lower-case status gives it back, and a report can be downloaded iff its label reads Ready |
| UnifiedReports.BadgeDefaults | src/pages/UnifiedReportsPage.tsx:59-82 | A type gets the muted style iff it is none of the four known types; a status is coloured iff it is ready, generating or failed |
| UnifiedReports.TypeColor | src/pages/UnifiedReportsPage.tsx:73-82 | A type gets the muted class iff it is none of the four known types |
| UnifiedReports.DownloadEnabled | src/pages/UnifiedReportsPage.tsx:124 | A report that can be downloaded has the status label "Ready" and a coloured status badge |
| UnifiedReports.StatusCountSplits | src/pages/UnifiedReportsPage.tsx:181-195 | Each count is the node reports' count plus the flow reports', and at most the number of reports |
| UnifiedReports.ReadyAndGeneratingApart | src/pages/UnifiedReportsPage.tsx:181-195 | The ready and generating counts together are at most the number of reports |
| UnifiedReports.DisjointCounts | src/pages/UnifiedReportsPage.tsx:181-195 | Two different statuses count at most the whole list between them |
| UnifiedReports.ListCounts | src/pages/UnifiedReportsPage.tsx:11-23 | Each constant list has three ready reports and one being generated |
| UnifiedReports.PageSummary | src/pages/UnifiedReportsPage.tsx:181-195 | The cards read 6 ready and 2 generating |
| Strings.ToLower | src/pages/mediations/NCCFlowsPage.tsx:41 | Same length; each ASCII capital lowered, every other character kept |
| Strings.ToLowerIdempotent | src/pages/mediations/NCCFlowsPage.tsx:48 | Lower-casing twice is lower-casing once |
| Strings.ToUpper | src/pages/UnifiedAlertsPage.tsx:66 | Same length; each ASCII small letter raised, every other character kept |
| Strings.ContainsEmpty | src/pages/mediations/NCCFlowsPage.tsx:48 | Every string includes the empty string |
| Strings.Trim | src/pages/TaskManager.tsx:30-35 | The result is no longer than the text and neither starts nor ends with white space |
| Strings.TrimKeepsMiddle | src/pages/TaskManager.tsx:30-35 | The trimmed text is a contiguous run of the input with only white space before and after it, so the middle is kept as typed |
| Strings.TrimEmptyIffBlank | src/pages/TaskManager.tsx:30 | A text trims to nothing iff it is all white space |
| Strings.SplitJoin | src/pages/RewardAccountManagement.tsx:185-186 | Splitting a join on its one-character separator gives the parts back when no part holds the separator |
| Strings.NatToString | src/services/campaignApi.ts:226 | Decimal digits, at least one, without a leading zero |
| Strings.IntToString | src/services/campaignApi.ts:226 | A non-negative number prints as its digits, a negative one with a minus sign first |
| Strings.NatToStringValue | src/services/campaignApi.ts:226 | Reading the printed digits gives the number back |
| Strings.Capitalize | src/pages/UnifiedReportsPage.tsx:68 | Same length; the first character upper-cased and the rest kept |
| Strings.IndexOfChar | src/pages/CampaignDetail.tsx:311 | The first index holding the character, or the length when there is none |
| Strings.ReplaceFirst | src/pages/CampaignDetail.tsx:311 | Same length; only the first occurrence of the character is replaced |
| Lists.Filter | src/pages/UnifiedReportsPage.tsx:39-46 | A filter keeps no more than the list |
| Lists.FilterSound | src/pages/UnifiedReportsPage.tsx:39-46 | Everything a filter keeps is in the list and passes the test |
| Lists.FilterComplete | src/pages/UnifiedReportsPage.tsx:39-46 | Everything in the list that passes the test is kept |
| Lists.FilterIsSubseq | src/pages/UnifiedReportsPage.tsx:39-46 | A filtered list keeps the list's order |
| Lists.FilterAppend | src/pages/UnifiedReportsPage.tsx:32-46 | Filtering a concatenation filters each part |
| Lists.SortBy | src/pages/UnifiedAlertsPage.tsx:33 | The sorted list is ordered by the key and is a permutation of the input |
| Lists.SortByStable | src/pages/UnifiedAlertsPage.tsx:33 | Elements with equal keys keep their input order |
| Lists.FilterSorted | src/pages/UnifiedAlertsPage.tsx:41-50 | Filtering a sorted list keeps it sorted |
| Lists.FilterCountPerm | src/pages/UnifiedAlertsPage.tsx:171-205 | Two lists with the same elements have as many elements passing any test |

## Left out

- Network: every `fetch` call, its address, `encodeURIComponent`, request bodies and headers. A service function is modelled from the response it receives (`Http.Response`) onwards.
- `JSON.parse` is the parameter `parse` of `CampaignApi.FetchCampaigns` and `DashboardApi.FetchCampaignList`. A parse failure is an error value; the shape of the parsed data is the `Payload` datatype.
- `res.json()` in `handleJson` and in the report calls: the body is taken as already parsed.
- The regular expression engine: the id rewrite is specified directly as a left-to-right scanner (`BigIds.MatchAt`, `BigIds.SanitizeFrom`), without backtracking into the digit run.
- BigIds.SanitizeIdempotent: proved for text where no rewritten digit run is directly followed by `id"`. For text such as `"id":` followed by fifteen digits, then `id":` and fifteen more digits, a second rewrite does change the text. `BigIds.NoDigitBeforeI` shows that JSON text meets the condition.
- ToLower (Strings.ToLower): maps only the ASCII capitals A-Z to lower case. JavaScript's `toLowerCase` also maps every other Unicode capital (É, Σ, and so on), so the searches of the flows, reward accounts, alerts and reports pages, and the node classification, are modelled for ASCII text only.
- ToUpper (Strings.ToUpper): maps only the ASCII letters a-z to upper case, one character for one. JavaScript's `toUpperCase` maps every Unicode letter and can lengthen the text (`"ß"` becomes `"SS"`), so the alert severity label is modelled for ASCII text only and its "same length" clause does not hold of JavaScript beyond ASCII.
- Capitalize (Strings.Capitalize): upper-cases the first character only when it is an ASCII letter a-z. JavaScript's `toUpperCase` maps any first letter and may turn it into two characters, so the status labels of the alerts and reports pages are modelled for ASCII text only.
- JavaScript numbers: `CampaignApi.Value` holds integers only. `String` of a fraction, an exponent form, `NaN` or an infinity is not modelled, and an array prints as `[object Object]` as a plain object does.
- `Number.parseFloat` followed by `Number.isFinite` is a parameter `string -> Option<real>` in `RewardAccounts`; `String` of a real is the parameter `show`.
- Money amounts in the campaign form are exact reals; floating-point rounding of `rewardValue * totalCustomers` is not modelled.
- Dates are integer timestamps. `new Date()` and `crypto.randomUUID()` are the parameters `now` and `freshId` of `TaskManager.TaskPage.HandleAddTask`. Date formatting is not modelled.
- `window.innerWidth` is the parameter `viewportWidth` of the flow layout.
- Toasts become the `Fail` message of `CampaignCreate.StepCheck` or an error value; navigation, dialogs, `console.log` and rendering are left out.
- The react-query hooks and the mutation calls: a page handler returns the request it would send (`HandleCreate`, `HandleEdit`, `HandleDelete`). A failed mutation, which leaves the form as it is in the page, is not modelled.
- `handleRefresh` on the alerts and reports pages waits one second and changes nothing that is modelled.
- The mock data pages (advertisements, waiters, chefs, campaign list), the SFTP collector node, the top navbar with its contexts, the login page, the index, Customer 360, the dashboard page, the flow canvas and display components and the layout shells are not part of this model.
- CampaignApi.NormalizePayload: JavaScript's `data &&` test on a parsed value is modelled through the `Payload` datatype: a scalar or null value is returned untouched, as is an object whose `campaigns` is not an array.
- NccFlows.NccFlowsPage.SetPageSize: takes only the four sizes of the menu (5, 10, 15, 20), the values the select can produce.
